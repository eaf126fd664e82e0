# Verified model of the runtime's inference accounting

This project models, in Dafny, how the runtime accounts for every inference
attempt under crashes, lost responses, retries and restarts, and proves that the
accounting is right.  `dafny verify dfyconfig.toml` checks everything.

The modules follow the program:

- `Ledger` gives each transaction of the durable ledger (`store.py`) as a function
  from the ledger before to the ledger after; `LedgerStore` gives the same
  transactions as an object that updates tables row by row, each method proved to
  be the function.  `LedgerInvariant` states what every ledger satisfies,
  `LedgerSteps` proves it for each transaction and `LedgerRuns` for whole runs;
  `LedgerRecovery` says when an attempt whose owner is gone can still be settled, and
  `LedgerEpochs` when a held attempt is on its pool's epoch.  `LedgerEffects`,
  `LedgerOutcomes` and `LedgerReconcile` say what each transaction does, condition by
  condition and row by row, and `LedgerResults` where results come from.
- `WaitQueue`, `Permits` and `MemoryScheduler` model the in-memory permit
  scheduler (`memory_scheduler.py`): the lazily cleaned heaps, capacity and the
  life of permits, and the scheduler as an object over both.  `SchedulerRuns` proves
  what whole runs of it keep, and when the head of a line is the least waiter;
  `SchedulerEffects` says who may queue, who gets a permit, and what ends one.
- `System` is the product of executors (`executor.py`), ledger, scheduler,
  restarts and engines, and holds the main safety theorem,
  `System.ComputingIsHeld`.  `Executor` is one tick of the executor with its
  exception handlers, proved to end its attempt by the one call that what it knows
  asks for, and to make no call that product does not allow.
- `Proxy` is one foreground request under `direct_proxy.py`, as producer,
  dispatcher, scheduler and engine interleave.
- `Buffering` and `BufferEffects` model batch sealing (`buffering.py`), `Replay` the
  replay of model leaves (`model_step.py` and the loop in `sdk.py`), `Language` the
  repair checker (`language.py`), and `Scanners` the incremental stream scanners
  (`admission.py`, `direct_proxy.py`).

A step of a state machine is what the source does between two awaits, or one
ledger transaction.  Functions that the source runs as loops or updates over
mutable state are methods here, and each method's contract equates it with a
function whose properties are proved as lemmas.

## Assumptions

- Ledger transactions are serializable, and a transaction that raises changes
  nothing.  One clock reading stands for the readings inside one transaction, and
  clocks do not go back; `finish_run` keeps its two readings apart.
- An owner whose lease is lost takes no further step (the guard `Stopped` of
  module System).
- Driver outcomes, idle probes and stopped-epoch evidence are true and stay true:
  an epoch that stopped never computes again.
- Attempt identities are fresh, and no request has the identity of a durable attempt.
- One task of the scheduler probes engines, one probe after another.
- Digests are injective, so a digest is modelled by what it is the digest of.

## Where the code differs from what one would expect

- A held attempt's epoch need not be its pool's current epoch
  (`System.HeldEpochMayDiffer`): it always is if and only if no send commits for an
  attempt whose pool has moved on (`LedgerEpochs.HeldCurrentRuns`), which sending does
  not check.  Such an attempt stays held until its owner calls
  (`LedgerEpochs.OutdatedForGood`); `LedgerRecovery.DeadOwnerSettlesIff` says which
  attempts can be settled once the owner is gone.
- `unknown` reported for an attempt that was never sent would strand it;
  `LedgerRuns.UnknownStrandsUnsent` shows that this is the only way, and
  `System.EndsPermitted` that the executor does not do it.
- `_first` compares queue times but not classes.  A request that waits, leaves, loses
  its identity to a refused `try_reserve` at another pool and comes back under a worse
  class, all within one reading of the clock, stands before better waiters
  (`SchedulerRuns.LeftoverMisleads`).  `SchedulerRuns.FirstIsLeastIff` gives the exact
  condition, join by join, and `SchedulerRuns.CallsClean` what callers have to avoid.
- A refused `try_reserve` erases its request even if that was already waiting
  (`SchedulerRuns.RefusalErasesWaiter`); it leaves no trace exactly when its request
  was neither waiting nor known (`MemoryScheduler.RefusalLeavesNoTrace`).

## Model

| member | source | states |
|---|---|---|
| LedgerRuns.RunInvariant | src/intramind_runtime/store.py:148-1195 | Every ledger that any sequence of transactions reaches satisfies the whole invariant (flags per state, one live attempt, exact books, closed runs, due completions), if `unknown` is only reported for sent attempts. |
| LedgerRuns.RunAbsorbing | src/intramind_runtime/store.py:666-764 | Over any stretch of a run: ended operations and runs keep state, result and reason, final attempts never change, sends and ends of computation are never forgotten, published completions stay, and an attempt that gave up its claim never claims again. |
| LedgerRuns.ApplySound | src/intramind_runtime/store.py:118-1195 | Each of the nineteen transactions keeps the invariant and undoes nothing final. |
| LedgerRuns.AtMostOneLive | src/intramind_runtime/store.py:389-452 | Two attempts of one operation that are both not final are the same attempt, and it is the active one. |
| LedgerRuns.LiveAttempts | src/intramind_runtime/store.py:389-452 | A queued operation has only final attempts; one in flight has its active attempt, and that one is not final. |
| LedgerRuns.StaleReservationInert | src/intramind_runtime/store.py:468-478 | A call under a reservation whose attempt ended or is no longer active leaves the ledger exactly as it was. |
| LedgerRuns.BooksExact | src/intramind_runtime/store.py:561-588 | Per root and unit `reserved` is the sum of held bounds, `spent` the sum of charged usage, their total at most the limit plus observed overruns, a running root has spent no more than its limit, and `attempts` counts the sends, within the maximum. |
| LedgerRuns.NoOverrunNoOverspend | src/intramind_runtime/store.py:508-530 | If no attempt was charged more than its bound, spent plus reserved never exceeds the limit. |
| LedgerRuns.SendsBounded | src/intramind_runtime/store.py:508-527 | The `attempts` counter of an operation is the number of its sent attempts and within its maximum. |
| LedgerRuns.ChargedOnce | src/intramind_runtime/store.py:561-588 | In every later ledger of a run a sent attempt is still sent, holds its reservation exactly until it is final, and a final one keeps its one usage for ever. |
| LedgerRuns.NoLostCompletion | src/intramind_runtime/store.py:778-796 | For every order of binding and finishing a completion is published exactly when its operation has ended, and never withdrawn. |
| LedgerRuns.UnknownStrandsUnsent | src/intramind_runtime/store.py:626-637 | `unknown` keeps the invariant if and only if the attempt was past RESERVED; otherwise it strands an attempt nothing could settle. |
| LedgerInvariant.InvAt | src/intramind_runtime/store.py:468-664 | A change confined to one live attempt, its operation, its root and its completions keeps the invariant of the whole ledger if those rows move as allowed. |
| LedgerInvariant.TotalUpdate | src/intramind_runtime/store.py:561-588 | Replacing one attempt row changes each sum over attempts by exactly the difference of its two weights. |
| LedgerSteps.MarkSendSound | src/intramind_runtime/store.py:480-530 | Charging and sending a reserved attempt is sound: both counters, the reservation and the two held flags move together. |
| LedgerSteps.HeartbeatSound | src/intramind_runtime/store.py:532-542 | A heartbeat moves at most a lease. |
| LedgerSteps.ComputeFinishedSound | src/intramind_runtime/store.py:550-559 | Recording the end of computation releases compute and nothing else. |
| LedgerSteps.CommitResultSound | src/intramind_runtime/store.py:590-624 | Committing a result, late or in time, settles the budget once and ends the operation at most once. |
| LedgerSteps.MarkUnknownSound | src/intramind_runtime/store.py:626-637 | Losing a sent attempt keeps its compute and budget held. |
| LedgerSteps.FailSound | src/intramind_runtime/store.py:639-664 | Failing an attempt releases both flags together and queues or ends its operation. |
| LedgerSteps.SettleStoppedSound | src/intramind_runtime/store.py:1130-1159 | Settling an attempt without its owner charges it once and retries or ends its operation. |
| LedgerSteps.ReconcileSound | src/intramind_runtime/store.py:870-936 | All phases of the reconciliation transaction together are sound. |
| LedgerSteps.ReconcileAttemptsSound | src/intramind_runtime/store.py:874-900 | The loop over abandoned attempts is sound for any number of rows and leaves rows it has not reached alone. |
| LedgerSteps.SettleProvenSound | src/intramind_runtime/store.py:1093-1124 | The loop over attempts that evidence about one epoch proves over is sound. |
| LedgerSteps.CancelSound | src/intramind_runtime/store.py:666-681 | Cancelling ends the run and every open operation with their completions. |
| LedgerSteps.FinishRunSound | src/intramind_runtime/store.py:683-758 | Finishing a run in any state, also past its deadline between two clock readings, is sound. |
| LedgerSteps.CreateRootSound | src/intramind_runtime/store.py:148-175 | Admitting a root, or finding it again, is sound. |
| LedgerSteps.SubmitOperationSound | src/intramind_runtime/store.py:232-282 | Admitting an operation, or finding it again, is sound; one past its deadline ends at once. |
| LedgerSteps.BindCompletionSound | src/intramind_runtime/store.py:785-796 | A binding gets its completion at once if the operation has ended, and not otherwise. |
| LedgerSteps.InsertSound | src/intramind_runtime/store.py:431-452 | A new attempt of a queued operation becomes its one live attempt and charges nothing. |
| LedgerSteps.ScanSound | src/intramind_runtime/store.py:373-466 | The candidate loop is sound for any list of candidates. |
| LedgerResults.ResultsAreCommitted | src/intramind_runtime/store.py:590-624 | In every run, every result an operation ever shows is the artifact of one commit made for it, by its active attempt after the recorded end of its inference, while its run was open and its deadline ahead. |
| LedgerResults.OnlyCommitSucceeds | src/intramind_runtime/store.py:148-1195 | No other transaction makes an operation succeed. |
| LedgerEffects.CommitResultDoes | src/intramind_runtime/store.py:590-624 | A commit gives the operation exactly its artifact if and only if the operation is open and in time and its run open; otherwise the result stays as it was, and an open operation fails; the attempt is charged once. |
| LedgerEffects.CommitResultIff | src/intramind_runtime/store.py:590-604 | A commit is taken only after the recorded end of computation, and a repeated one only with the same result. |
| LedgerEffects.FinishedThenCommitted | src/intramind_runtime/store.py:550-624 | Recording the end of a sent attempt and committing makes its open operation succeed with the artifact. |
| LedgerEffects.FailDoes | src/intramind_runtime/store.py:639-664 | A failure is refused while compute may run; it charges nothing for what was not sent and the bound otherwise, and queues the operation again exactly if asked to while operation and run are open. |
| LedgerEffects.SettleStoppedDoes | src/intramind_runtime/store.py:1130-1159 | Settling without the owner charges the bound of what was sent; the operation is queued again at once if and only if recovery is asked for and run, deadlines, attempts and budget after settlement allow it, and fails otherwise. |
| LedgerEffects.MarkSendIff | src/intramind_runtime/store.py:480-520 | A send commits if and only if attempt, operation, run, lease, deadlines, both attempt counts and the budget allow it. |
| LedgerEffects.MarkSendDoes | src/intramind_runtime/store.py:520-530 | It counts once for operation and run, reserves the bound in its unit, and claims compute and budget. |
| LedgerEffects.HeartbeatDoes | src/intramind_runtime/store.py:532-548 | A heartbeat moves the lease of a live attempt, by the lease time, exactly when no live owner vouches for it. |
| LedgerEffects.ComputeFinishedDoes | src/intramind_runtime/store.py:550-559 | The end of computation is recorded of a live attempt and releases its compute. |
| LedgerEffects.MarkUnknownDoes | src/intramind_runtime/store.py:626-637 | A lost attempt keeps what it holds and the first time of loss; its operation waits for evidence or has expired. |
| LedgerEffects.StrangerRefused | src/intramind_runtime/store.py:468-478 | A call with another owner or fence, or for an attempt that is not active, changes nothing. |
| LedgerOutcomes.ReserveNextDoes | src/intramind_runtime/store.py:327-466 | A serving pool reserves the first candidate that it serves and that is due, open and within attempts and budget, if there is one; the new attempt is of its operation, pool and epoch and holds nothing. |
| LedgerOutcomes.ConsiderDoes | src/intramind_runtime/store.py:389-452 | A candidate that is due but passed over ends, with the reason, if it can never be reserved, and waits otherwise. |
| LedgerOutcomes.CreateRootDoes | src/intramind_runtime/store.py:148-175 | A valid run is admitted once, while there is room and time, with its budgets untouched. |
| LedgerOutcomes.SubmitOperationDoes | src/intramind_runtime/store.py:232-282 | An operation is admitted if and only if its run is open, of its tenant and unit, and the quotas of run and model have room. |
| LedgerOutcomes.BindCompletionDoes | src/intramind_runtime/store.py:785-796 | A binding names the operation it was first made for. |
| LedgerOutcomes.ConfigurePoolDoes | src/intramind_runtime/store.py:201-230 | A pool gets the row it is given unless that changes it while anything on it is held. |
| LedgerOutcomes.CancelDoes | src/intramind_runtime/store.py:666-681 | Cancelling ends a run that has not ended, and all its open operations. |
| LedgerOutcomes.FinishRunDoes | src/intramind_runtime/store.py:683-758 | A running run ends as asked, or fails past its deadline; success is refused while an operation is open, and any other end cancels those. |
| LedgerOutcomes.FinishRunRefuses | src/intramind_runtime/store.py:683-713 | Which ends of a run are invalid. |
| LedgerReconcile.ReconcileCloses | src/intramind_runtime/store.py:870-936 | After reconciliation an operation is open only before its own deadline, in a running run that is not past its deadline. |
| LedgerReconcile.ReconcileFailsRuns | src/intramind_runtime/store.py:927-928 | Exactly the running runs past their deadline fail. |
| LedgerReconcile.ReconcileSpares | src/intramind_runtime/store.py:870-936 | An operation in time whose attempts have living owners is left alone, unless it is queued and impossible. |
| LedgerReconcile.ReconcileGivesBack | src/intramind_runtime/store.py:874-900 | An operation in time whose attempt lost its owner is queued again if nothing was sent, and else waits for evidence. |
| LedgerReconcile.ReconcileAttemptsDoes | src/intramind_runtime/store.py:874-900 | Exactly the unsent attempts without an owner or an open operation are taken back, and exactly the sent ones without an owner become uncertain. |
| LedgerReconcile.ImpossibleIff | src/intramind_runtime/store.py:900-926 | A request is impossible if and only if there are pools of its kind and none of them serves it. |
| LedgerReconcile.SettleIdleIff | src/intramind_runtime/store.py:1161-1198 | Idle evidence ends exactly the uncertain attempts of the epoch that it names and that were lost before it began. |
| LedgerReconcile.ConfirmStoppedIff | src/intramind_runtime/store.py:1086-1128 | When stopped-epoch evidence is refused, and exactly which attempts it ends. |
| LedgerReconcile.SettleLostIff | src/intramind_runtime/store.py:939-984 | Exactly the attempts whose inference ended and that nobody can commit any more are lost. |
| LedgerReconcile.EvidenceDecidesOperation | src/intramind_runtime/store.py:1093-1124 | Evidence decides the fate of each operation in the turn of its attempt, on the books of that turn, and later turns do not touch it. |
| LedgerRecovery.DeadOwnerSettlesIff | src/intramind_runtime/store.py:848-984 | Once the owner of an attempt is gone, reconciliation, lost-result settlement and idle evidence together end it if and only if it holds no compute or its epoch is its pool's. |
| LedgerRecovery.DeadOwnerBeforeEnd | src/intramind_runtime/store.py:874-900 | Without its owner an unsent attempt is cancelled and a sent one becomes UNKNOWN, still holding compute. |
| LedgerRecovery.DeadOwnerAfterEnd | src/intramind_runtime/store.py:939-984 | An attempt whose inference ended but whose result can no longer be committed is settled. |
| LedgerRecovery.EvidenceSettles | src/intramind_runtime/store.py:1093-1195 | Idle and stopped-epoch evidence on the pool's current epoch settle an uncertain attempt. |
| LedgerRecovery.MismatchedEpochUnsettled | src/intramind_runtime/store.py:1086-1089 | Evidence about any pool and epoch leaves an attempt alone whose epoch is no longer its pool's. |
| LedgerEpochs.HeldCurrentRuns | src/intramind_runtime/store.py:201-230 | Over any transactions from an empty attempt table, every attempt that holds compute is always on its pool's epoch if and only if no send committed for an attempt whose epoch was not its pool's: the check that sending lacks. |
| LedgerEpochs.HeldCurrentIff | src/intramind_runtime/store.py:486-530 | Transaction by transaction: all nineteen keep this, except exactly such a late send. |
| LedgerEpochs.OutdatedForGood | src/intramind_runtime/store.py:201-230 | In a run an attempt that holds compute on an epoch its pool has left does so in every later ledger until its owner calls, and the pool cannot return to that epoch. |
| LedgerEpochs.OutdatedStep | src/intramind_runtime/store.py:1086-1128 | No single transaction but a call of its owner ends that. |
| LedgerRecovery.ReconfiguredBeforeSend | src/intramind_runtime/store.py:486-490 | An attempt reserved before its pool was given another epoch is still sent on the old one, because sending does not look at the epoch. |
| LedgerRecovery.ReconcileRow | src/intramind_runtime/store.py:874-900 | Reconciliation changes attempt rows only as its loop says. |
| LedgerStore.Store.constructor | src/intramind_runtime/store.py:74-83 | A new store satisfies the ledger invariant. |
| LedgerStore.Store.CompletionEvents | src/intramind_runtime/store.py:778-783 | One outbox row per binding of the operation, none twice. |
| LedgerStore.Store.EndOperation | src/intramind_runtime/store.py:760-764 | An operation ends at most once, and its completions are published. |
| LedgerStore.Store.TerminateEach | src/intramind_runtime/store.py:878-879 | Ending a set of operations one by one is ending them all, in any order. |
| LedgerStore.Store.Settle | src/intramind_runtime/store.py:561-588 | The reservation of a held attempt turns into usage exactly once; overrunning the limit fails the run, overrunning the bound degrades the pool. |
| LedgerStore.Store.CreateRoot | src/intramind_runtime/store.py:148-175 | The row-by-row transaction is the specified one; errors change nothing. |
| LedgerStore.Store.SubmitOperation | src/intramind_runtime/store.py:232-282 | The same, with its quotas and the immediate end of an expired operation. |
| LedgerStore.Store.AddOperation | src/intramind_runtime/store.py:271-281 | The inserted rows are those of the specification. |
| LedgerStore.Store.Consider | src/intramind_runtime/store.py:373-466 | One candidate is skipped, ended or reserved as specified. |
| LedgerStore.Store.ReserveNext | src/intramind_runtime/store.py:327-466 | The candidate loop returns the reservation and the ledger of the specification. |
| LedgerStore.Store.MarkSend | src/intramind_runtime/store.py:480-530 | All checks and the four updates make the specified transaction, else nothing changes. |
| LedgerStore.Store.Heartbeat | src/intramind_runtime/store.py:532-548 | Only a lease may move, and the executor is told to go on exactly while its request is wanted. |
| LedgerStore.Store.ComputeFinished | src/intramind_runtime/store.py:550-559 | The specified transaction. |
| LedgerStore.Store.CommitResult | src/intramind_runtime/store.py:590-624 | The specified transaction, with the repeated commit of another result refused. |
| LedgerStore.Store.CommitFinished | src/intramind_runtime/store.py:605-624 | Expiry, settlement, state and completions in the source's order give the specified rows. |
| LedgerStore.Store.Answer | src/intramind_runtime/store.py:616-624 | A result is published only if the operation had not ended, expired or lost its run. |
| LedgerStore.Store.MarkUnknown | src/intramind_runtime/store.py:626-637 | The specified transaction. |
| LedgerStore.Store.Lose | src/intramind_runtime/store.py:630-637 | The first time an attempt was lost is kept. |
| LedgerStore.Store.Fail | src/intramind_runtime/store.py:639-664 | The specified transaction; compute that may run is not refunded. |
| LedgerStore.Store.FailLive | src/intramind_runtime/store.py:646-664 | Settlement, state and the operation's fate give the specified rows. |
| LedgerStore.Store.EndFailed | src/intramind_runtime/store.py:651-664 | An operation that failed is cancelled, failed, expired or queued again, in that order of precedence. |
| LedgerStore.Store.Cancel | src/intramind_runtime/store.py:666-681 | The specified transaction. |
| LedgerStore.Store.FinishRun | src/intramind_runtime/store.py:683-758 | The specified transaction, cancellation and invalid requests included. |
| LedgerStore.Store.FinishRunning | src/intramind_runtime/store.py:715-758 | A run past its deadline can only fail; success needs every operation ended. |
| LedgerStore.Store.EndRun | src/intramind_runtime/store.py:730-758 | A run that did not succeed takes its open operations with it. |
| LedgerStore.Store.BindCompletion | src/intramind_runtime/store.py:785-796 | The specified transaction. |
| LedgerStore.Store.TakeBack | src/intramind_runtime/store.py:887-900 | One row of the reconciliation loop, whatever rows the loop selected. |
| LedgerStore.Store.ReconcileExpired | src/intramind_runtime/store.py:870-936 | All phases of the transaction are those of the specification. |
| LedgerStore.Store.SettleStoppedAttempt | src/intramind_runtime/store.py:1130-1159 | The attempt with its books first, then its operation, make the specified settlement. |
| LedgerStore.Store.EndStopped | src/intramind_runtime/store.py:1139-1159 | The operation is queued again exactly when recovery is asked for and run, deadlines, attempts and budget allow it. |
| LedgerStore.Store.SettleLostResult | src/intramind_runtime/store.py:961-979 | One row is settled exactly if it is lost. |
| LedgerStore.Store.SettleEach | src/intramind_runtime/store.py:1093-1124 | The loop over rows that evidence selects is the specified one. |
| LedgerStore.Store.ConfirmEpochStopped | src/intramind_runtime/store.py:1086-1128 | The specified transaction; another epoch is refused. |
| LedgerStore.Store.SettleIdleUnknown | src/intramind_runtime/store.py:1161-1198 | The specified transaction; another epoch settles nothing. |
| LedgerStore.Store.ConfigurePool | src/intramind_runtime/store.py:201-230 | A changed pool is refused while anything on it is held, and only then. |
| System.ComputingIsHeld | src/intramind_runtime/executor.py:89-107 | In every interleaving of executors, transactions, scheduler steps, crashes, restarts and engines: an attempt an engine computes holds compute and budget in the ledger, has a permit of the running scheduler or is in what a starting one hydrates, and is the only one of its operation. |
| System.QueuedIsIdle | src/intramind_runtime/executor.py:78-193 | No engine computes for an operation that is queued again; only the active attempt of an operation computes. |
| System.SomeEngineComputes | src/intramind_runtime/executor.py:78-107 | The theorem is not empty: a concrete run from an empty ledger in which an operation is admitted, reserved, permitted, sent and computed. |
| System.HeldEpochMayDiffer | src/intramind_runtime/store.py:486-490 | A concrete run from an empty ledger in which a pool is reconfigured between permit and send: an engine computes, and the ledger holds, an attempt whose epoch is not its pool's. |
| System.SysRunInvariant | src/intramind_runtime/executor.py:78-205 | The product invariant holds in every reachable state. |
| System.StepInv | src/intramind_runtime/executor.py:78-205 | Each of the twenty-one kinds of step keeps it. |
| System.MarkInv | src/intramind_runtime/executor.py:94-97 | SEND_INTENT commits before the permit is checked, also when its acknowledgement is lost. |
| System.ExecutorInv | src/intramind_runtime/executor.py:85-107 | Taking a permit, checking it again, sending, giving up, learning an outcome and crashing keep the invariant. |
| System.WriteEndInv | src/intramind_runtime/executor.py:45-76 | Writing the end of an attempt keeps it, repeated or not. |
| System.EndsPermitted | src/intramind_runtime/executor.py:156-193 | The executor reports `unknown` only after its SEND_INTENT committed, which is what the ledger asks of its callers. |
| System.SchedulerInv | src/intramind_runtime/memory_scheduler.py:278-296 | Grants, restarts, releases and reconciliation on stale reads never drop the permit of an attempt that may compute. |
| System.BackgroundSettles | src/intramind_runtime/store.py:874-984 | No settlement without the owner ends an attempt that an engine may still compute. |
| Executor.Tick | src/intramind_runtime/executor.py:78-205 | Whatever is raised in a tick, it ends its attempt by the one call that what it knows asks for, and makes no other call than the product allows: not-sent failures only before the final permit check or on the driver's evidence, `unknown` only after it, a result only after its end was recorded. |
| Executor.Handle | src/intramind_runtime/executor.py:149-193 | Each exception handler makes the one call that ends the attempt as far as is known; only an executor that lost its attempt after the mark makes none. |
| Executor.PersistResult | src/intramind_runtime/executor.py:113-148 | The persistence loop tries again after anything but a fence or a shutdown, records the end first, and ends with the commit of the result in the first turn in which nothing is raised; the inference is never run again. |
| SchedulerRuns.RunFirstIsLeast | src/intramind_runtime/memory_scheduler.py:480-492 | In every run whose waiters joined clean (no leftover heap entry of the same identity and queue time promises a better class), `_first` returns nobody exactly when no waiter of the pool is alive, and otherwise the least one alive by class, queue time and identity. |
| SchedulerRuns.FirstIsLeastIff | src/intramind_runtime/memory_scheduler.py:480-492 | Exactly then: `_first` can be trusted after every turn of a run, whatever clean turns follow, if and only if every join of the run was clean. |
| SchedulerRuns.CallsClean | src/intramind_runtime/memory_scheduler.py:514-542 | Every run is clean whose callers do not bring one request identity to one pool under two classes within one clock reading; durable attempts keep the class of their roots. |
| SchedulerRuns.TurnHonest | src/intramind_runtime/memory_scheduler.py:480-509 | Turn by turn: entries are honest after a turn if and only if it was clean; grants, refusals, departures and evictions always are. |
| SchedulerRuns.RunHeadIsEnough | src/intramind_runtime/memory_scheduler.py:624-626 | In every clean run, when capacity refuses the head of a line it refuses every waiter behind it, so granting only heads wastes nothing. |
| SchedulerRuns.RunGrantsLeast | src/intramind_runtime/memory_scheduler.py:624-636 | In every clean run a grant goes to the least waiter alive, direct or durable. |
| SchedulerRuns.RunTryGrantsLeastIff | src/intramind_runtime/memory_scheduler.py:562-594 | An immediate grant goes to the least waiter, the newcomer included, if and only if nobody better stands behind a leftover entry of the newcomer. |
| SchedulerRuns.LeftoverMisleads | src/intramind_runtime/memory_scheduler.py:486-594 | A run of five turns within one reading, every check of the source passed, in which a leftover entry puts a request before a better waiter and its refusal leaves that waiter's capacity idle. |
| WaitQueue.FirstEvicts | src/intramind_runtime/memory_scheduler.py:480-492 | It removes nothing but stale heap entries and expired waiters of the pool, and keeps heap and counters in order. |
| WaitQueue.FirstHead | src/intramind_runtime/memory_scheduler.py:480-492 | It ends with its answer at the head of the heap, or with the heap empty. |
| WaitQueue.JoinHonest | src/intramind_runtime/memory_scheduler.py:494-501 | Entries stay honest over a join if and only if no leftover entry of the same identity and queue time promises a better class. |
| WaitQueue.FirstNotAfter | src/intramind_runtime/memory_scheduler.py:480-492 | No entry of a waiter alive stands before the head at which `_first` ends. |
| WaitQueue.JoinWellFormed | src/intramind_runtime/memory_scheduler.py:494-501 | A join keeps heaps sorted, waiters listed and counters equal to recounts. |
| WaitQueue.LeaveWellFormed | src/intramind_runtime/memory_scheduler.py:503-509 | So does a leave, which keeps the heap entry. |
| WaitQueue.EraseWellFormed | src/intramind_runtime/memory_scheduler.py:588-594 | So does the clean-up of a refused attempt to reserve. |
| WaitQueue.WithoutPushed | src/intramind_runtime/memory_scheduler.py:590-594 | Erasing a request after its push leaves what erasing it before leaves. |
| WaitQueue.WithoutPush | src/intramind_runtime/memory_scheduler.py:590-594 | So into a heap free of the request erasing undoes its push. |
| Permits.RefusalDescends | src/intramind_runtime/memory_scheduler.py:72-93 | A class that is refused shuts out every class of the same or a lower rank, under the rules of both kinds of pool. |
| Permits.CapacityHolds | src/intramind_runtime/memory_scheduler.py:72-93 | In every run, while pools change health, epoch and target, a pool never holds more permits, uncertain ones counted, than the highest limit it had or the restart hydrated. |
| Permits.BackgroundHolds | src/intramind_runtime/memory_scheduler.py:80-87 | The same for the permits of an LLM pool that are not interactive, and its background limit. |
| Permits.StepCapacity | src/intramind_runtime/memory_scheduler.py:72-93 | A single step takes a pool no higher than the limit in force at that moment, or leaves it no higher than it was. |
| Permits.GroupCapacityHolds | src/intramind_runtime/memory_scheduler.py:88-92 | The same for the native pools of a group and the highest ceiling of its rows, as long as pools join the group without permits. |
| Permits.DirectHoldsWhileLive | src/intramind_runtime/memory_scheduler.py:648-676 | In every run a direct attempt is among the permits exactly while it is reserved, sent or uncertain. |
| Permits.SentKeepsSlot | src/intramind_runtime/memory_scheduler.py:375-430 | A sent direct attempt gives its slot back only on a completed response, not-sent evidence, the end of its epoch, or two probes in a row of one epoch and source that both exclude it and both began after it was lost. |
| Permits.StreakBacked | src/intramind_runtime/memory_scheduler.py:400-415 | Every streak the scheduler keeps was proven by the last probe of its pool. |
| Permits.DurableIdleProven | src/intramind_runtime/memory_scheduler.py:416-430 | The durable attempts handed to the ledger were found idle by two probes in a row, since the time given to the ledger. |
| Permits.TwoProbesSettle | src/intramind_runtime/memory_scheduler.py:414-424 | Conversely two probes in a row settle: a direct attempt that was lost before the first of them began, and that both find idle, becomes recoverable and gives its slot back. |
| Permits.TwoProbesHandOn | src/intramind_runtime/memory_scheduler.py:419-430 | And a durable attempt that was uncertain throughout is handed to the ledger, with the time the first probe began. |
| SchedulerRuns.RunTwoProbesSettle | src/intramind_runtime/memory_scheduler.py:375-430 | So in every run of the scheduler. |
| SchedulerEffects.AcquireIsRoom | src/intramind_runtime/memory_scheduler.py:72-93 | A permit may be had if and only if the pool serves and the permits held leave room, counted for the kind of pool and the class. |
| SchedulerEffects.FinishDoes | src/intramind_runtime/memory_scheduler.py:661-671 | Evidence ends a permit that is held, as it says, and no other. |
| SchedulerEffects.LoseDoes | src/intramind_runtime/memory_scheduler.py:673-676 | A lost answer leaves its permit held and notes the time. |
| SchedulerEffects.RefreshDoes | src/intramind_runtime/memory_scheduler.py:260-287 | A pool read again in another epoch ends exactly its direct permits of other epochs, the unsent ones as unsent. |
| SchedulerEffects.RereadDoes | src/intramind_runtime/memory_scheduler.py:273-287 | And is ready at once exactly if it is healthy and was waiting for a former process. |
| SchedulerEffects.StartedDoes | src/intramind_runtime/memory_scheduler.py:161-181 | When a pool is ready after a start. |
| SchedulerRuns.DeskRunOk | src/intramind_runtime/memory_scheduler.py:161-676 | In every run, while pools open and close, heaps are sorted, counters exact, lines within their limits and slots in step with attempt states. |
| SchedulerRuns.LinesWithinLimits | src/intramind_runtime/memory_scheduler.py:533-535 | In every run the direct waiters of a pool and of a tenant, counted afresh, equal the cached counters and stay within their limits. |
| SchedulerRuns.TurnIsSlotStep | src/intramind_runtime/memory_scheduler.py:596-636 | Every turn of the scheduler changes permits by one step of the permit machine or not at all. |
| SchedulerRuns.RunIsSlotRun | src/intramind_runtime/memory_scheduler.py:596-676 | So the permits of a run of the scheduler are a run of the permit machine. |
| SchedulerRuns.RunCapacity | src/intramind_runtime/memory_scheduler.py:72-93 | And so in every run of the scheduler a pool stays within the highest limit it had, or no further above than the restart hydrated. |
| SchedulerRuns.RunBackground | src/intramind_runtime/memory_scheduler.py:80-87 | The same for the background limit of an LLM pool. |
| SchedulerRuns.RunGroupCapacity | src/intramind_runtime/memory_scheduler.py:88-92 | The same for the native pools of a group, as long as pools join it without permits. |
| SchedulerRuns.RunSentKeepsSlot | src/intramind_runtime/memory_scheduler.py:375-430 | And no turn of the scheduler takes the slot of a sent direct attempt without completed or not-sent evidence, a new epoch, or two probes in a row. |
| MemoryScheduler.ReserveGrants | src/intramind_runtime/memory_scheduler.py:596-636 | A grant goes to the waiter alive that `_first` names and within capacity; a further generation follows only an attempt that failed unsent or recoverably, and none after the third. |
| SchedulerEffects.EnqueueDoes | src/intramind_runtime/memory_scheduler.py:514-542 | Every answer to a request to queue, condition by condition: conflicts, repeats, full lines, unqualified pools, and joining. |
| SchedulerEffects.LatestIs | src/intramind_runtime/memory_scheduler.py:525-530 | The latest attempt of a request is the first one of its highest generation. |
| SchedulerEffects.ReserveIff | src/intramind_runtime/memory_scheduler.py:596-636 | A reservation is granted if and only if its request waits at the head of an open line, may have another attempt, and there is room. |
| SchedulerEffects.TryReserveIff | src/intramind_runtime/memory_scheduler.py:562-594 | An immediate attempt is granted if and only if the pool serves it and, once queued, it would be granted. |
| SchedulerEffects.TryReserveCodes | src/intramind_runtime/memory_scheduler.py:569-577 | When an immediate attempt is refused before it is queued. |
| SchedulerRuns.GrantDurableIff | src/intramind_runtime/memory_scheduler.py:778-790 | A durable waiter is granted if and only if it leads the line of an open pool and there is room. |
| MemoryScheduler.EnqueueOk | src/intramind_runtime/memory_scheduler.py:514-542 | Queuing keeps all of this, and a request that is queued waits. |
| MemoryScheduler.ReserveOk | src/intramind_runtime/memory_scheduler.py:596-636 | So does a reservation, which only removes waiters. |
| MemoryScheduler.TryReserveOk | src/intramind_runtime/memory_scheduler.py:562-594 | So does an attempt to reserve at once. |
| MemoryScheduler.RefusalErases | src/intramind_runtime/memory_scheduler.py:562-594 | Past its first checks a refused attempt to reserve leaves permits as they were and its request in no line, identity or heap entry of the pool; besides, only expired waiters and dead heap entries of the pool go. |
| MemoryScheduler.RefusalLeavesNoTrace | src/intramind_runtime/memory_scheduler.py:562-594 | A refusal leaves no trace but what was dead, as it promises, if and only if its request was neither waiting nor known before; an earlier refusal changes nothing at all. |
| SchedulerRuns.RefusalErasesWaiter | src/intramind_runtime/memory_scheduler.py:588-594 | A concrete run in which a waiting request tries to be served at once, is refused, and waits no longer. |
| MemoryScheduler.Scheduler.constructor | src/intramind_runtime/memory_scheduler.py:103-146 | A new scheduler is in order and holds nothing. |
| MemoryScheduler.Scheduler.AddWaiter | src/intramind_runtime/memory_scheduler.py:494-501 | Waiter, heap and both counters as specified. |
| MemoryScheduler.Scheduler.RemoveWaiter | src/intramind_runtime/memory_scheduler.py:503-509 | The waiter and its counts go, the heap entry stays. |
| MemoryScheduler.Scheduler.FirstOf | src/intramind_runtime/memory_scheduler.py:480-492 | The loop ends with the specified head and lines. |
| MemoryScheduler.Scheduler.EnqueueDirect | src/intramind_runtime/memory_scheduler.py:514-542 | The specified queuing, refusals included. |
| MemoryScheduler.Scheduler.Admit | src/intramind_runtime/memory_scheduler.py:538-541 | The waiter joins and its identity is known from now on. |
| MemoryScheduler.Scheduler.LatestOf | src/intramind_runtime/memory_scheduler.py:525-530 | The scan finds the attempt of highest generation, the first entered on a tie. |
| MemoryScheduler.Scheduler.ReserveDirect | src/intramind_runtime/memory_scheduler.py:596-636 | The specified reservation. |
| MemoryScheduler.Scheduler.GrantIfHead | src/intramind_runtime/memory_scheduler.py:624-636 | The specified grant. |
| MemoryScheduler.Scheduler.TryReserveDirect | src/intramind_runtime/memory_scheduler.py:562-594 | The specified attempt, undone when refused. |
| MemoryScheduler.Scheduler.Undo | src/intramind_runtime/memory_scheduler.py:588-594 | The specified clean-up. |
| MemoryScheduler.Scheduler.MarkSendDirect | src/intramind_runtime/memory_scheduler.py:648-653 | A permit is marked if and only if it is reserved and held and its request has time left. |
| MemoryScheduler.Scheduler.FinishDirect | src/intramind_runtime/memory_scheduler.py:661-671 | Evidence ends the permit once; a response needs a send. |
| MemoryScheduler.Scheduler.UnknownDirect | src/intramind_runtime/memory_scheduler.py:673-676 | A held permit becomes uncertain with its time. |
| MemoryScheduler.Scheduler.StartTimes | src/intramind_runtime/memory_scheduler.py:161-181 | Each pool is ready after its grace time, or once work of a former process is over. |
| MemoryScheduler.Scheduler.Start | src/intramind_runtime/memory_scheduler.py:161-184 | Pools are set up so, and those already past that time wait no longer. |
| MemoryScheduler.Scheduler.ExpireDirty | src/intramind_runtime/memory_scheduler.py:432-438 | Pools whose time has come no longer wait for a former process. |
| MemoryScheduler.Scheduler.Drain | src/intramind_runtime/memory_scheduler.py:323-325 | A pool found idle is ready at once. |
| MemoryScheduler.Scheduler.SetControl | src/intramind_runtime/memory_scheduler.py:298-313 | Only the readiness of control changes. |
| MemoryScheduler.Scheduler.RefreshPool | src/intramind_runtime/memory_scheduler.py:255-287 | A changed epoch ends exactly the direct permits of older epochs, and a healthy engine in it is ready at once. |
| MemoryScheduler.Scheduler.EndOutlived | src/intramind_runtime/memory_scheduler.py:273-282 | The loop over permits ends them all and no other. |
| MemoryScheduler.Scheduler.EndProbe | src/intramind_runtime/memory_scheduler.py:395-430 | One probe starts, continues or breaks a streak, and a second one settles it. |
| MemoryScheduler.Scheduler.Recover | src/intramind_runtime/memory_scheduler.py:416-426 | The loop over permits recovers exactly the direct attempts proven idle. |
| MemoryScheduler.Scheduler.ReconcileDurable | src/intramind_runtime/memory_scheduler.py:440-458 | Durable permits are dropped exactly when the ledger no longer shows them held or reserved. |
| Proxy.OutcomeIsEvidence | src/intramind_runtime/direct_proxy.py:730-842 | For everything that can happen on the wire, the outcome the retry loop acts on is the settlement that was recorded. |
| Proxy.EvidenceByEvent | src/intramind_runtime/direct_proxy.py:730-842 | An attempt is settled as not sent if and only if nothing reached the engine or it turned the request away, as completed if and only if a response ended, and is uncertain otherwise. |
| Proxy.OutcomeByEvent | src/intramind_runtime/direct_proxy.py:730-842 | And the producer goes on with exactly that: a valid answer, a terminal error, a deferral, another try, or an uncertain end. |
| Proxy.DecidedByOutcome | src/intramind_runtime/direct_proxy.py:556-612 | When the producer tries again, waits for recovery or ends, and what it then tells the caller. |
| Proxy.HonestAnswer | src/intramind_runtime/direct_proxy.py:553-555 | The caller gets an answer only if a complete and valid one came from the engine. |
| Proxy.HonestTermination | src/intramind_runtime/direct_proxy.py:556-565 | The caller is told that computation is over only when every attempt failed unsent or recoverably, was never sent, or ended with a response. |
| Proxy.SomeRequestIsAnswered | src/intramind_runtime/direct_proxy.py:532-621 | The theorems are not empty: a concrete run with a refused first attempt and an answered second one. |
| Proxy.ThreeSends | src/intramind_runtime/direct_proxy.py:532-621 | A foreground request is sent at most three times, and again only when every attempt before failed unsent or recoverably. |
| Proxy.OnePermit | src/intramind_runtime/direct_proxy.py:672-711 | It never has two attempts holding permits. |
| Proxy.NoPermitLeak | src/intramind_runtime/direct_proxy.py:508-530 | However its producer ends, each permit granted was given back, is recorded as uncertain, or waits for a settlement that the dispatcher can retry. |
| Proxy.HonestRefusal | src/intramind_runtime/direct_proxy.py:638-650 | The caller is told `not_sent` only if no generation of the request ever reaches compute, before or after. |
| Proxy.SendsAreAttempts | src/intramind_runtime/direct_proxy.py:532-621 | The sends of a run are as many as the attempts that were posted. |
| Proxy.ReqRunInvariant | src/intramind_runtime/direct_proxy.py:190-842 | The invariant of one request holds in every interleaving of producer, dispatcher, scheduler and engine. |
| Proxy.StepInv | src/intramind_runtime/direct_proxy.py:190-842 | Every step keeps it. |
| Proxy.ConcludeInv | src/intramind_runtime/direct_proxy.py:820-842 | So does the end of an attempt, also when its settlement cannot be written. |
| Buffering.OneAtATime | src/intramind_runtime/buffering.py:117-127 | At most one workflow of a partition runs, and every older batch of the partition is over, whatever pumps repeat or lose. |
| Buffering.SealedInOrder | src/intramind_runtime/buffering.py:129-153 | Sealed items are a prefix of their partition; batches follow acceptance order without gaps, of one policy and bounded size. |
| Buffering.SealedForGood | src/intramind_runtime/buffering.py:179-199 | A sealed item never changes its batch, an ended run never its end, and a failed batch never gets a root. |
| Buffering.BufferRunInvariant | src/intramind_runtime/buffering.py:36-199 | The invariant holds in every run. |
| Buffering.SealAllInv | src/intramind_runtime/buffering.py:102-153 | All batches of one call keep it. |
| Buffering.SelectMaximal | src/intramind_runtime/buffering.py:133-139 | A batch ends only at its size, at another policy, or at the last item. |
| Buffering.SelectGapless | src/intramind_runtime/buffering.py:129-139 | No item between two of a batch is left out. |
| Buffering.AppendOnce | src/intramind_runtime/buffering.py:36-86 | Accepting a key twice returns the same item and adds nothing. |
| BufferEffects.AppendNew | src/intramind_runtime/buffering.py:36-86 | A new submission is accepted if and only if its task allows it and all three quotas have room; it is then due after its delay. |
| BufferEffects.AppendAgain | src/intramind_runtime/buffering.py:36-60 | A repeated submission is the one it repeats, or a conflict. |
| BufferEffects.SealableIff | src/intramind_runtime/buffering.py:117-127 | An item starts a batch if and only if it is due and the oldest unsealed one of a partition that is not busy. |
| BufferEffects.SelectIff | src/intramind_runtime/buffering.py:129-139 | A batch takes exactly the unsealed items of its partition up to its size, and none from the first other policy on. |
| BufferEffects.SealDoes | src/intramind_runtime/buffering.py:140-152 | The batch gets its policy and deadline, its items their batch, and nothing else changes. |
| BufferEffects.SubmitDoes | src/intramind_runtime/store.py:181-199 | Submitting makes the workflow of a batch run, once, if and only if its deadline lies ahead. |
| BufferEffects.DeferDoes | src/intramind_runtime/buffering.py:187-198 | A failed dispatch is tried again after ten seconds, unless the deadline is past and no workflow was made. |
| Buffering.DispatchInv | src/intramind_runtime/buffering.py:155-199 | Submitting, acknowledging, deferring and ending keep the invariant in any order. |
| Buffering.Submissions.Accept | src/intramind_runtime/buffering.py:36-86 | The specified acceptance, with all quotas. |
| Buffering.Submissions.FindNext | src/intramind_runtime/buffering.py:117-127 | Finds the sealable item that is due first, or that there is none. |
| Buffering.Submissions.Collect | src/intramind_runtime/buffering.py:129-139 | The candidate loop collects the specified run. |
| Buffering.Submissions.Seal | src/intramind_runtime/buffering.py:102-153 | Each batch is of the items next in line, and the call ends at its limit or when nothing is sealable. |
| Buffering.Submissions.SealNext | src/intramind_runtime/buffering.py:140-152 | The batch and its items as specified. |
| Buffering.Submissions.Postpone | src/intramind_runtime/buffering.py:187-198 | A batch fails only past its deadline and without a root. |
| Buffering.Submissions.SubmitRun | src/intramind_runtime/store.py:181-199 | A repeated submission finds its root, a late one makes none. |
| Buffering.Submissions.MarkSubmitted | src/intramind_runtime/buffering.py:175-177 | Only a batch still preparing is marked submitted. |
| Replay.ModelStep | src/intramind_runtime/sdk.py:420-449 | The loop asks a prefix of the direct run, each request once and in order, at most the limit; a result is the direct run's; a leaf that lets suspensions pass gets it whenever the limit allows. |
| Replay.ReplayIsDirect | src/intramind_runtime/model_step.py:113-137 | Planning on the first answers of a direct run asks its next question, or ends as it did. |
| Replay.DoneIffFollows | src/intramind_runtime/model_step.py:113-137 | A plan is done if and only if the records are the leaf's own question sequence, whatever the leaf catches or swallows. |
| Replay.QuestionIsNext | src/intramind_runtime/model_step.py:113-137 | A planned question is the leaf's next one after records it asked for itself. |
| Replay.ForeignRecordsRejected | src/intramind_runtime/model_step.py:78-110 | Any other record list is rejected. |
| Replay.SpoiledStays | src/intramind_runtime/model_step.py:74-86 | A violation or an open question is never undone by what the leaf does next. |
| Replay.PlanModelStep | src/intramind_runtime/model_step.py:113-137 | Driving the leaf against the port gives the specified plan. |
| Replay.ModelPort.Call | src/intramind_runtime/model_step.py:78-110 | Each call answers, suspends or rejects as specified, in the source's order of checks. |
| Replay.ModelPort.Reject | src/intramind_runtime/model_step.py:74-76 | A rejection is remembered. |
| Language.RepairAccepted | src/intramind_runtime/language.py:204-222 | A repair is accepted exactly when its fixed tokens are the same, or it removes all Han and some placement of the old tokens in order leaves only numbers over. |
| Language.GreedyComplete | src/intramind_runtime/language.py:214-222 | If any such placement exists the one-pass check finds one. |
| Language.GreedySound | src/intramind_runtime/language.py:214-222 | What the one-pass check accepts has such a placement. |
| Language.CheckFixedTokens | src/intramind_runtime/language.py:204-222 | The loop decides the specified check. |
| Language.RepairAcceptedIff | src/intramind_runtime/language.py:225-254 | A repair is accepted if and only if there is one fair text for each issue and the document with them in place has nothing flagged; the result is that document. |
| Language.InspectIff | src/intramind_runtime/language.py:100-122 | An inspection finds exactly the texts that the policy flags, each at its path. |
| Language.RepairChangesOnlyFlagged | src/intramind_runtime/language.py:225-254 | A repair keeps the shape of the document, puts each text where its issue was found, changes no other string and leaves nothing flagged. |
| Language.RepairDocument | src/intramind_runtime/language.py:225-254 | Writing the texts one by one into a copy gives the specified document, or refuses as specified. |
| Language.PutPatched | src/intramind_runtime/language.py:246-251 | Writing one more leaf of a patched document patches one more leaf. |
| Language.StringsAreLeaves | src/intramind_runtime/language.py:78-86 | Every listed string is the leaf at its path. |
| Language.StringsDistinct | src/intramind_runtime/language.py:78-86 | No two listed strings have the same path. |
| Language.IssuesAreLeaves | src/intramind_runtime/language.py:100-122 | Issues found in a document are leaves of it with their texts. |
| Scanners.SplitFrames | src/intramind_runtime/admission.py:111-132 | What is forwarded, observed and known of the attempt is that of the whole stream cut at once, up to a frame that raises, however it was chunked; a stream is given up exactly at the first chunk that leaves a remainder over the bound, after the frames before it. |
| Scanners.ScanForMarker | src/intramind_runtime/direct_proxy.py:778-791 | The marker seen is that of the complete lines of the whole stream, or of the chunks before the first one that leaves a remainder over the bound. |
| Scanners.NeverOverflowsIffBounded | src/intramind_runtime/admission.py:130-131 | No chunking of a stream overflows if and only if its pieces are within the bound. |
| Scanners.DeliverDoes | src/intramind_runtime/admission.py:113-129 | Exactly the frames to forward are forwarded, and exactly the frames to observe are observed, in order, up to the first one that raises. |
| Scanners.KnownDoes | src/intramind_runtime/admission.py:119-128 | What is known of the attempt changes with each frame by what it says, or by the end of the answer of a known attempt. |
| Scanners.CutRebuilds | src/intramind_runtime/admission.py:113-118 | Cutting loses nothing, and no piece holds a delimiter. |
| Scanners.CutAppend | src/intramind_runtime/admission.py:113-118 | Cutting a stream piecewise and cutting it whole give the same pieces and remainder. |
| Scanners.ChunkingIrrelevant | src/intramind_runtime/direct_proxy.py:778-791 | Two chunkings of a bounded stream are scanned alike. |
| Scanners.Drain | src/intramind_runtime/admission.py:115-129 | The inner loop delivers the complete frames in order, up to one that raises, and with what they say about the attempt. |
| Scanners.NextFrame | src/intramind_runtime/admission.py:116 | The first complete frame and what follows it. |

## Left out

- SQL, locking and the order of candidates in `reserve_next`: any list of candidates is considered, so every property holds for every order and page size.
- Delivery of outbox events, the artifacts table and payload prefix checks: a completion event is the identity of its binding in a set.
- The legacy table of direct attempts and attempts that were charged before they were sent.
- `quiesce_engine`, `resume_engine`, `update_target` and the watchdog: any change of a pool's health or target is one transaction (`ControlPool`).
- The parsing of the evidence of `confirm_epoch_stopped`: the transaction starts after it.
- `reconcile_expired`: the distinct reasons for impossible requests are one reason, and the page of queued operations it inspects is any set.
- Attempt identities are positions in the attempt table rather than random texts.
- The arrangement of a heap in its array: a heap is its entries in order, and the library functions that keep it are one insertion and one filter.
- The monotonic and the wall clock of the scheduler are one clock, read once per turn; the probing of slots after an unclean restart appears as the turn in which a pool is found idle.
- Leases of durable permits, metrics and wake-ups of the scheduler.
- Rate limits, byte limits of whole responses, headers and bodies sent to callers: the proxy model keeps what is said about computation.
- Process shutdown and task cancellation in the proxy; its dictionaries of pending, recovering and settling attempts are modelled per request, as parts of the state of that request.
- `Proxy.NoPermitLeak`: a settlement that keeps failing is kept and can be retried; that a retry succeeds in the end is not claimed.
- Artifact upload and hashing in `dispatch`: a batch submitted again is the same submission.
- The quotas of `append` are checked as counts; the sizes of inputs are not modelled.
- `_rolling_children`, `map_children` and the rest of the workflow library.
- `Replay.ModelStep`: an exception of the model call other than a terminal failure ends the workflow command and is not modelled.
- Leaves without a bound on the number of their calls.
- Regular expressions, language detection, path patterns and counting of terms are functions of a policy, left uninterpreted.
- Incremental decoding of text: scanners work on bytes with line feeds, as the source does for delimiters.
- Easy code around this core: contracts, settings, metrics, inspection, clients, routes, drivers, object storage.
