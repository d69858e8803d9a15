# Verified model of a composable transactional database

The project models, in Dafny 4.11, the protocols a distributed transactional
database is built from, and proves what they promise over every run.

* **Row locks** (`LockSlot.dfy`): the lock queue of one row, as a value and as the
  object that keeps counters, sets, a deque and a map in place.
* **Two-phase commit** (`TwoPhaseCommit.dfy`, `TxCoordinator.dfy`, `TxContext.dfy`,
  `CommitProtocol.dfy`, `CommitVotes.dfy`, `CommitOutcomes.dfy`, `CommitDecisions.dfy`, `CommitRest.dfy`,
  `CommitEnds.dfy`, `CommitHits.dfy`, `CommitWork.dfy`, `CommitLocal.dfy`): coordinator (TM) and
  participants (RMs) as handlers, as objects proved equal to the handlers, and all interleavings of
  one transaction: messages unordered, lost or delivered once, log callbacks at any later time or
  never, deadlock victims at any time.  What never happens is proved of every run, and so is what has
  happened once nothing is under way any more.
* **Serializability** (`Serializability.dfy`, `AccessModes.dfy`, `AccessCycles.dfy`): any number of
  transactions over any number of rows; lock and unlock requests are posted to a row
  and handled there later, grants are told later still.
* **Raft** (`RaftNode.dfy`, `RaftMachine.dfy`, `RaftCluster.dfy`, `RaftLogs.dfy`,
  `RaftCommit.dfy`, `RaftEarlyCommit.dfy`, `RaftDelivery.dfy`, `RaftVotes.dfy`, `RaftSpread.dfy`,
  `RaftReach.dfy`, `RaftReplicate.dfy`, `RaftCompact.dfy`): one node as handlers and as an object, and a
  group of nodes whose messages may be lost, repeated and reordered and whose log
  writes complete later; what every run keeps, and what every run can still come to.
* **Deadlock detection** (`WaitGraph.dfy`, `WaitPath.dfy`, `Deadlocks.dfy`): Tarjan's
  algorithm by recursion over a map that it changes, with an explicit stack, the choice
  of victims, and which deadlocks the reported dependencies show.
* **Calvin** (`Calvin.dfy`, `CalvinRuns.dfy`, `CalvinOrder.dfy`, `CalvinOnce.dfy`, `CalvinProgress.dfy`,
  `CalvinReach.dfy`): the sequencer of one shard, and all shards together with at-most-once messages.
* **Bytes** (`Bytes.dfy`, `TxLog.dfy`, `Framing.dfy`): the repeated transaction log
  and the framing of messages on a stream.

The pattern is the same throughout. A value and handler functions say what one
step does. A class does the same in place, and each of its methods is proved equal to
the handler. A step relation lets handlers run in any order the environment allows,
invariants are proved step by step, and the theorems quantify over all runs
(`Legal`/`After`, `CanRun`/`Reached`, `PromptRun`).

Where the code does not give what one might expect, the model keeps the code's
behaviour, a lemma shows an input on which it fails, and the condition under which it
holds is proved:

* A transaction that holds a row for reading and asks to write it is answered at
  once and still holds it for reading only (`UpgradeSharesTheRow`). An answered write
  request is exclusive if and only if the transaction did not hold the row for reading
  (`AnsweredWriteIsExclusive`). The serial order is therefore proved over the modes
  held (`ConflictsDecideInOrder`, `NoPrecedenceCycle`). Over the accesses themselves,
  runs in which a list of operations takes part are serializable if and only if the
  list never writes a row that it accessed first by reading (`SerializableIff`): any list
  that does makes a cycle with a transaction that reads the row twice
  (`UpgradeCycles`). The code offers a read-for-write operation for that purpose.
* A waiter is reported to the deadlock detector without any dependency if and only if
  it is a reader behind a waiting writer on a row that no writer holds
  (`WaiterHasDependency`). On rows without such readers there is a deadlock if and only if
  the reported dependencies have a cycle (`DetectionIsExact`). A row has such a reader if
  and only if, with a second row that has none, it has a deadlock that the dependencies do
  not show (`MissedIffOvertaken`); lock and unlock calls lead to one (`DeadlockIsMissed`).
  A deadlock lasts until one of its transactions unlocks (`DeadlockIsForGood`).
* A new Raft leader takes every node to match its whole log. Whenever it raises its
  commit index it raises it at least to where its log ended when it was elected
  (`CommitReachesStart`). If it gets beyond, to an entry of its own term, a majority has
  held its log up to every committed entry (`MajorityCommit`). If it stops there, nobody
  else need ever have held more than the first entry, however long the log is
  (`CommitsWithoutMajority`). Whether somebody
  did depends on what the followers stored and not on what the leader knows, so the
  condition is sufficient and not necessary.
* The vote handler of the coordinator asserts that no vote comes from a shard already
  noted as aborted. That holds in every run if and only if the coordinator is aborted
  only as a deadlock victim (`VotesFailOnlyOnOtherErrors`); a failed log append, for
  instance, aborts it with another error. More sharply, it holds as long as no such
  abort hits the coordinator while it waits for a vote (`VotesNeverFail`).
* A participant whose request arrives after the coordinator's abort starts all the same, votes, and
  stays prepared with its locks, although the client has been told of the abort and nothing is under
  way any more (`HitLeavesBehind`): the abort found no participant and was dropped. At rest all
  participants have ended, in every run, if and only if nothing hits the transaction from outside
  (`StuckOnlyAfterHits`). More sharply, at rest a started participant has ended unless an abort came
  before it had started (`RestOutcome`).
* A Raft group of one node never commits anything (`AloneNeverCommits`): only the answer of another
  node makes a leader look for a new commit index. With two nodes or more any payload can come to be
  handed out everywhere, from every state of every run without compaction (`EveryPayloadCanCommit`).
* Taking the address of a payload asserts eight bytes behind it. Writing a batch meets
  that if and only if its last payload has eight bytes (`BatchAsserts`): the records before
  it have the next header behind them. Reading a log asks it of every payload.

Failing assertions are otherwise treated as follows. In `update_consistency_index` a
call beyond the end of the log, where the code asserts, leaves the log as it is. In
`append_entries` a start beyond the log sends no entries, as the code does when
assertions are off. In two-phase commit the asserted branches of the commit, abort and
acknowledgement handlers are proved unreachable (`ErrorBranchesUnreachable`).

## Model

| member | source | states |
|---|---|---|
| `LockSlots.LockKeepsInv` | src/concurrency/lock_slot.cpp:19-36 | a lock request keeps: at most one writer, never a writer with readers; readers, writers and waiters partition the entries; the front of a non-empty queue conflicts with a holder |
| `LockSlots.UnlockKeepsInv` | src/concurrency/lock_slot.cpp:149-282 | an unlock keeps the same invariant |
| `LockSlots.CountsAddUp` | src/concurrency/lock_slot.cpp:358-367 | readers, writers and waiters together are as many as the entries: the assertion that is commented out holds |
| `LockSlots.IdleHasNoWaiters` | src/concurrency/lock_slot.cpp:107-132 | a row nobody holds has no waiters, so the assertion on taking an idle row for writing holds |
| `LockSlots.PromoteTakesPrefix` | src/concurrency/lock_slot.cpp:199-246 | promotion takes waiters from the front of the queue only, and forgets nobody |
| `LockSlots.UnlockTakesPrefix` | src/concurrency/lock_slot.cpp:199-282 | those granted by an unlock are a prefix of the queue that is left, in order |
| `LockSlots.ToldWasWaiting` | src/concurrency/lock_slot.cpp:199-282 | whoever is told was waiting before and holds the row after |
| `LockSlots.UnlockOther` | src/concurrency/lock_slot.cpp:156-282 | an unlock changes nobody else's mode and takes the row from nobody else |
| `LockSlots.LockConserves` | src/concurrency/lock_slot.cpp:19-36 | the new request is either answered at once or queued, and no other request is touched |
| `LockSlots.UnlockConserves` | src/concurrency/lock_slot.cpp:149-282 | every queued request is told, still queued or withdrawn with its transaction, exactly one of these |
| `LockSlots.EveryRunBalances` | src/concurrency/lock_slot.cpp:19-36 | over every run of calls, the requests made are exactly those told, those still queued and those withdrawn by an unlock while waiting |
| `LockSlots.ToldOnce` | src/concurrency/lock_slot.cpp:247-270 | a request made once is told at most once, and exactly once unless it still waits or was withdrawn |
| `LockSlots.ReleasesTakePrefix` | src/concurrency/lock_slot.cpp:149-282 | any sequence of releases by holders grants a prefix of the queue in order and removes one entry each |
| `LockSlots.Drain` | src/concurrency/lock_slot.cpp:149-282 | from any state, releasing holders in any order never gets stuck, ends after as many releases as there are entries, and has then granted every waiter in queue order |
| `LockSlots.AnsweredWriteIsExclusive` | src/concurrency/lock_slot.cpp:19-36 | an answered write request leaves its transaction alone on the row if and only if the transaction did not hold it for reading |
| `LockSlots.UpgradeSharesTheRow` | src/concurrency/lock_slot.cpp:402-416 | two readers, one of which asks to write: it is answered and the other still reads |
| `LockSlots.DependencyIsConflict` | src/concurrency/lock_slot.cpp:423-433 | a waiter's reported dependencies are exactly the holders it conflicts with |
| `LockSlots.WaiterHasDependency` | src/concurrency/lock_slot.cpp:369-382 | a waiter's dependencies are empty if and only if it is a reader, no writer holds the row and a waiting writer is ahead of it; a waiting writer always has one |
| `LockSlots.OvertakenReaderHasNone` | src/concurrency/lock_slot.cpp:423-433 | a reader that waits behind a waiting writer while a reader holds the row is reported to wait for nobody |
| `LockSlots.LockSlot.Lock` | src/concurrency/lock_slot.cpp:19-36 | the object after a lock call is the value after the request, with counters equal to set sizes, and the answer says whether it was granted |
| `LockSlots.LockSlot.AddLockInfo` | src/concurrency/lock_slot.cpp:402-422 | the entry of the transaction is made or extended, and a holder is recognised |
| `LockSlots.LockSlot.ReadLock` | src/concurrency/lock_slot.cpp:87-105 | a read request is granted exactly if there is no writer, else queued last |
| `LockSlots.LockSlot.WriteLock` | src/concurrency/lock_slot.cpp:107-132 | a write request is granted exactly if nobody holds the row, else queued last |
| `LockSlots.LockSlot.RemoveLock` | src/concurrency/lock_slot.cpp:156-197 | a holder or waiter is removed from exactly the collection it is in |
| `LockSlots.LockSlot.EraseWaiter` | src/concurrency/lock_slot.cpp:181-192 | all queued requests of the transaction are erased, the others keep their order |
| `LockSlots.LockSlot.CollectGrantable` | src/concurrency/lock_slot.cpp:199-246 | the scan takes exactly the waiters that one-at-a-time promotion would grant |
| `LockSlots.LockSlot.GrantBatch` | src/concurrency/lock_slot.cpp:247-282 | a batch found grantable becomes holders one after the other, as granting the first that many would, and its requests are told |
| `LockSlots.LockSlot.NotifyLockAcquire` | src/concurrency/lock_slot.cpp:199-282 | all grantable waiters become holders and are told once each, in queue order |
| `LockSlots.LockSlot.Unlock` | src/concurrency/lock_slot.cpp:38-42 | the object after an unlock is the value after it, and the same requests are told |
| `TxCoordinators.TxCoordinator.HandleTxRequest` | src/concurrency/tx_coordinator.cpp:103-138 | the request is split by shard, each operation to its own shard and in order; it is accepted if and only if every shard has a known leader, and otherwise exactly the operations up to the first without one are noted |
| `TxCoordinators.TxCoordinator.SendRmRequest` | src/concurrency/tx_coordinator.cpp:140-153 | requests go only to tracked, reachable shards, and to all of them if and only if all are reachable |
| `TxCoordinators.TxCoordinator.OnBegin` | src/concurrency/tx_coordinator.cpp:63-72 | equals the handler for the begin record on the shards actually reached |
| `TxCoordinators.TxCoordinator.OnCommitted` | src/concurrency/tx_coordinator.cpp:74-80 | equals the handler for the durable commit record: commit goes to every shard |
| `TxCoordinators.TxCoordinator.OnAborted` | src/concurrency/tx_coordinator.cpp:82-90 | equals the handler for the durable abort record: abort to every shard, one answer |
| `TxCoordinators.TxCoordinator.OnEnded` | src/concurrency/tx_coordinator.cpp:92-101 | equals the handler for the durable end record |
| `TxCoordinators.TxCoordinator.SendCommit` | src/concurrency/tx_coordinator.cpp:155-178 | one commit message to every tracked shard |
| `TxCoordinators.TxCoordinator.SendAbort` | src/concurrency/tx_coordinator.cpp:179-194 | one abort message to every tracked shard |
| `TxCoordinators.TxCoordinator.SendTxResponse` | src/concurrency/tx_coordinator.cpp:393-414 | the client is answered the first time only, with the error of that time |
| `TxCoordinators.TxCoordinator.WriteCommitLog` | src/concurrency/tx_coordinator.cpp:347-362 | the commit record is written at most once |
| `TxCoordinators.TxCoordinator.WriteAbortLog` | src/concurrency/tx_coordinator.cpp:363-376 | the abort record is written at most once |
| `TxCoordinators.TxCoordinator.WriteEndLog` | src/concurrency/tx_coordinator.cpp:377-391 | the end record is written at most once and only after an outcome |
| `TxCoordinators.TxCoordinator.CountStates` | src/concurrency/tx_coordinator.cpp:285-309 | the counters are the numbers of shards in each state |
| `TxCoordinators.PreparedIn` | src/concurrency/tx_coordinator.cpp:316-328 | the counts of the two votes add up to the number of shards if and only if all have voted, and then none voted abort if and only if all voted commit |
| `TxCoordinators.TxCoordinator.StepTmStateAdvance` | src/concurrency/tx_coordinator.cpp:285-329 | the decision by counting equals the decision by what all shards have in common; that this is made as soon as it can be, `CommitDecisions.VotesDecide` proves of every run |
| `TxCoordinators.TxCoordinator.HandleTxRmPrepare` | src/concurrency/tx_coordinator.cpp:211-245 | equals the handler for a vote |
| `TxCoordinators.TxCoordinator.HandleTxRmAck` | src/concurrency/tx_coordinator.cpp:247-283 | equals the handler for an acknowledgement |
| `TxCoordinators.TxCoordinator.Abort` | src/concurrency/tx_coordinator.cpp:416-447 | equals the handler for an abort or deadlock victim |
| `TxContexts.TxContext.ProcessTxRequest` | src/concurrency/tx_context.cpp:379-400 | in place: `RmStart` |
| `TxContexts.TxContext.HandleNextOperation` | src/concurrency/tx_context.cpp:402-448 | in place: `NextOperation` |
| `TxContexts.TxContext.LockRow` | src/concurrency/tx_context.cpp:111-161 | one lock asked for, under the next number |
| `TxContexts.TxContext.NotifyLockAcquire` | src/concurrency/tx_context.cpp:88-105 | in place: `RmOnLock` |
| `TxContexts.TxContext.OpDone` | src/concurrency/tx_context.cpp:402-448 | in place: `RmOnOpDone`; what its error does to the outcome, `CommitOutcomes.FailedNeverCommits` and `CommitEnds.OperationsDecide` prove of every run |
| `TxContexts.TxContext.SendTxResponse` | src/concurrency/tx_context.cpp:536-567 | one answer only |
| `TxContexts.TxContext.TxCommitted` | src/concurrency/tx_context.cpp:627-649 | in place: `Release` after a commit |
| `TxContexts.TxContext.TxAborted` | src/concurrency/tx_context.cpp:651-674 | in place: `Release` after an abort |
| `TxContexts.TxContext.ReleaseLock` | src/concurrency/tx_context.cpp:686-703 | every lock unlocked once, in order |
| `TxContexts.TxContext.OnLogEntryCommit` | src/concurrency/tx_context.cpp:593-674 | in place: `RmOnLog` |
| `TxContexts.TxContext.HandleTxTmCommit` | src/concurrency/tx_context.cpp:934-949 | in place: `RmOnTmCommit` |
| `TxContexts.TxContext.HandleTxTmAbort` | src/concurrency/tx_context.cpp:824-840 | in place: `RmOnTmAbort` |
| `TxContexts.TxContext.Abort` | src/concurrency/tx_context.cpp:769-793 | in place: `RmOnVictim` |
| `CommitProtocol.NextKeepsInv` | src/concurrency/tx_coordinator.cpp:211-447 | every event of a transaction keeps the commit invariant |
| `CommitProtocol.EveryRunKeepsInv` | src/concurrency/tx_coordinator.cpp:41-447 | the commit invariant holds after every run of events, with and without a coordinator |
| `CommitProtocol.AtomicCommitment` | src/concurrency/tx_context.cpp:797-877 | in no run does one shard log commit and another abort; a logged commit means every shard's prepare-commit record is durable |
| `CommitProtocol.CommitComesLast` | src/concurrency/tx_coordinator.cpp:347-362 | the step that first logs commit on a shard finds every shard's prepare-commit record durable already |
| `CommitProtocol.AnswersGrow` | src/concurrency/tx_coordinator.cpp:393-414 | an answer given to the client stays given in every longer run |
| `CommitProtocol.ClientAnswer` | src/concurrency/tx_coordinator.cpp:393-447 | at most one answer; OK only when every shard has acknowledged its commit; after any other answer no shard ever logs commit |
| `CommitProtocol.ErrorBranchesUnreachable` | src/concurrency/tx_coordinator.cpp:247-283 | no run reaches the asserted branches of the commit, abort and acknowledgement handlers |
| `CommitVotes.VotesNeverFail` | src/concurrency/tx_coordinator.cpp:211-245 | as long as no abort, other than of a deadlock victim, hits the coordinator while it waits for a vote, no vote comes from a shard noted as aborted unless the transaction is a victim |
| `CommitVotes.VotesFailOnlyOnOtherErrors` | src/concurrency/tx_coordinator.cpp:239-244 | the assertion of the vote handler holds in every run if and only if the coordinator is aborted with no error but that of a victim |
| `CommitVotes.OneHitFails` | src/concurrency/tx_coordinator.cpp:239-244 | for every shard and every other error, a run of one participant and one abort in which the acknowledgement overtakes the vote |
| `CommitVotes.EveryRunVotes` | src/concurrency/tx_coordinator.cpp:211-329 | in every such run each shard owes at most one vote, and none once it is noted |
| `CommitOutcomes.FailedNeverCommits` | src/concurrency/tx_context.cpp:402-448 | in every run, with and without a coordinator, a participant one of whose operations has failed never logs a vote to commit, or a commit |
| `CommitOutcomes.FailedFailsAll` | src/concurrency/tx_coordinator.cpp:316-329 | nor does any other shard of its transaction log a commit, and the client is never told it committed |
| `CommitOutcomes.AbortVoteMeansFailed` | src/concurrency/tx_context.cpp:402-448 | a vote to abort is logged only after an operation of that participant has failed |
| `CommitOutcomes.VoteIsDecided` | src/concurrency/tx_context.cpp:402-448 | a participant with nothing under way that was not aborted has logged its vote, to commit exactly when none of its operations failed |
| `CommitOutcomes.EveryRunBusy` | src/concurrency/tx_context.cpp:402-448 | in every run a participant still at work waits for a lock or for an operation |
| `CommitDecisions.VotesDecide` | src/concurrency/tx_coordinator.cpp:316-328 | in every run an idle coordinator that has noted a vote of every shard has logged its decision: to commit when all voted so, to abort when one did not |
| `CommitDecisions.OutcomesEnd` | src/concurrency/tx_coordinator.cpp:311-315 | one that has noted the same outcome of every shard has answered the client and logged the end |
| `CommitDecisions.EveryRunDecides` | src/concurrency/tx_coordinator.cpp:285-391 | the invariant behind both: what is written is logged, an abort is logged only against a durable vote to abort, and no decision that can be made is put off |
| `CommitDecisions.VictimIsTooLate` | src/concurrency/tx_coordinator.cpp:347-362 | in every run an idle coordinator marked as a victim has logged its commit: the mark never holds a commit record back |
| `CommitRest.EveryRunFlows` | src/concurrency/tx_coordinator.cpp:63-101 | in every run votes, decisions and acknowledgements are under way, noted or logged, or the abort came before its participant; an ended participant holds no lock |
| `CommitRest.RestOutcome` | src/concurrency/tx_coordinator.cpp:285-329 | with all participants started and nothing under way, every shard has committed, the client has OK and the coordinator is done; or every shard has aborted but those whose abort came before they had started, and the client has one other answer |
| `CommitEnds.OperationsDecide` | src/concurrency/tx_context.cpp:402-448 | at rest, in a run that nothing hits, the transaction has aborted everywhere if an operation failed and has committed everywhere otherwise; all locks are free and the coordinator is done |
| `CommitEnds.NoneMissed` | src/concurrency/cc_block.cpp:859-873 | in such a run no abort comes before its participant has started |
| `CommitEnds.HitLeavesBehind` | src/concurrency/cc_block.cpp:859-873 | for every shard, operation and error, a run in which the abort overtakes the request: at rest the participant is prepared and holds its lock, and the client has the error |
| `CommitEnds.StuckOnlyAfterHits` | src/concurrency/cc_block.cpp:859-873 | all participants have ended in every run at rest if and only if nothing hits the transaction |
| `CommitHits.HitForbidsCommit` | src/concurrency/tx_coordinator.cpp:416-447 | a transaction hit, directly or by a participant's notice, before its commit is logged never commits, at the coordinator or at a participant |
| `CommitHits.HitIsNoticed` | src/concurrency/tx_context.cpp:769-793 | a participant that is hit sends the coordinator a notice |
| `CommitHits.EveryRunBegun` | src/concurrency/tx_coordinator.cpp:63-72 | once the begin record is durable every shard is requested or has started, or the client has its answer |
| `CommitHits.EveryClientAnswered` | src/concurrency/tx_coordinator.cpp:393-414 | a client whose transaction was begun has exactly one answer when nothing is under way any more, whatever hit it and whichever requests could not be sent |
| `CommitWork.EveryRunInOrder` | src/concurrency/tx_context.cpp:111-161 | in every run a participant asks for the locks of its operations in their order, one by one, under the numbers 1, 2, 3, ..., and has exactly the operations left that it has not done |
| `CommitWork.VoteMeansDone` | src/concurrency/tx_context.cpp:402-448 | a participant that has logged its vote to commit, and has not ended, has done all operations of the plan and holds a lock for each, in order |
| `CommitWork.AbortAnswered` | src/concurrency/tx_context.cpp:824-840 | a participant that hears an abort, again or for the first time, has its abort record under way or an acknowledgement |
| `CommitWork.CommitFindsPrepared` | src/concurrency/tx_context.cpp:934-949 | in every run a commit message finds its participant prepared: the branch for one already committing is never taken |
| `CommitLocal.LocalOutcome` | src/concurrency/tx_context.cpp:402-448 | a transaction on one shard has, at rest, aborted with the last error told if an operation failed or a hit came before anything was logged, and otherwise committed with OK; its locks are free |
| `CommitLocal.AbortedIff` | src/concurrency/tx_context.cpp:769-793 | such a transaction logs an abort only for one of these two reasons, and a hit in time makes it do so |
| `CommitLocal.EveryRunTold` | src/concurrency/tx_context.cpp:536-567 | the error answered is the last one told before the outcome was durable |
| `Serializability.DbNextKeepsLocks` | src/concurrency/tx_context.cpp:88-105 | every step keeps the locking invariant; in particular no participant is notified without the callback it waits with, and no participant asks for a row it already waits for |
| `Serializability.TurnTells` | src/concurrency/lock_slot.cpp:199-282 | whoever is told by a turn of a row holds it, and its transaction is not decided |
| `Serializability.DecidedIsSettled` | src/concurrency/tx_context.cpp:797-877 | once a transaction is decided none of its participants asks for another lock |
| `Serializability.AbortIsFinal` | src/concurrency/tx_context.cpp:651-674 | a transaction that logged an abort is never decided |
| `Serializability.EndedHasOutcome` | src/concurrency/tx_context.cpp:686-703 | a participant ends, and so unlocks, only after the decision or a logged abort |
| `Serializability.OutcomesStay` | src/concurrency/tx_coordinator.cpp:285-376 | a decision or a logged abort is not undone by any event |
| `Serializability.SlotStepKeepsHist` | src/concurrency/lock_slot.cpp:19-282 | a turn of a row keeps the history of grants and releases sound |
| `Serializability.TxStepKeepsHist` | src/concurrency/tx_context.cpp:402-448 | so does an event of a transaction |
| `Serializability.EveryRunIsSound` | src/concurrency/tx_context.cpp:686-703 | over every run of many transactions: a grant lasts until a release, conflicting grants are separated by a release, releases follow a decision or an abort, and nothing is granted after the decision |
| `Serializability.ConflictsDecideInOrder` | src/concurrency/lock_slot.cpp:19-282 | of two committed transactions granted a row in conflicting modes, the first one decides before the second one is granted the row, and so before it decides |
| `Serializability.PathsDecideInOrder` | src/concurrency/tx_coordinator.cpp:285-362 | decisions come in order along every path of the precedence graph |
| `Serializability.NoPrecedenceCycle` | src/concurrency/tx_context.cpp:402-448 | the precedence graph of the committed transactions of every run is acyclic, across all shards |
| `AccessModes.LockModes` | src/concurrency/lock_slot.cpp:402-416 | without upgrades an answered write request leaves its transaction holding the row for writing, and what it holds for reading it only reads |
| `AccessModes.EveryRunKeepsModes` | src/concurrency/tx_context.cpp:111-257 | in every run without upgrades, what a transaction holds for reading it only reads |
| `AccessModes.AccessesDecideInOrder` | src/concurrency/tx_context.cpp:111-257 | the same order for the modes of the operations, in every run whose plans write no row that they accessed first by reading |
| `AccessModes.NoAccessCycle` | src/concurrency/tx_context.cpp:111-257 | the precedence graph over accesses is acyclic in those runs |
| `AccessCycles.UpgradeCycles` | src/concurrency/lock_slot.cpp:402-416 | any list of operations that upgrades a row has, with a transaction that reads the row twice, a run in which each accesses the row before the other, in conflict, and both commit |
| `AccessCycles.SerializableIff` | src/concurrency/tx_context.cpp:111-257 | the accesses are serializable in all runs a list of operations takes part in, with any others that upgrade nothing, if and only if the list upgrades no row |
| `AccessCycles.DoAll` | src/concurrency/tx_context.cpp:402-448 | a transaction whose locks nobody holds in conflict runs through any list of operations |
| `RaftMachines.RaftMachine.TimeoutRequestVote` | src/raft/state_machine.cpp:294-320 | equals the timeout handler |
| `RaftMachines.RaftMachine.SendVoteRequests` | src/raft/state_machine.cpp:339-362 | one vote request to each node that has not answered |
| `RaftMachines.RaftMachine.AdvanceTerm` | src/raft/state_machine.cpp:1063-1073 | equals the step to a higher term |
| `RaftMachines.RaftMachine.HandleRequestVoteRequest` | src/raft/state_machine.cpp:733-770 | equals the vote handler; whom it votes for, `RaftVotes.LeaderEndsLatest` and `RaftVotes.VoteGranted` prove of every run |
| `RaftMachines.RaftMachine.HandleRequestVoteResponse` | src/raft/state_machine.cpp:772-795 | equals the handler that counts votes |
| `RaftMachines.RaftMachine.TakeLead` | src/raft/state_machine.cpp:622-662 | every node's progress is reset to the new leader's last index, and a heart beat goes out |
| `RaftMachines.RaftMachine.LeaderAppendEntry` | src/raft/state_machine.cpp:434-488 | only a leader appends, at the next index and in its term |
| `RaftMachines.RaftMachine.SendHeartBeat` | src/raft/state_machine.cpp:284-292 | only a leader sends, and then to every other node |
| `RaftMachines.RaftMachine.LeaderSendAppendEntries` | src/raft/state_machine.cpp:490-497 | every other node is sent its own slice, independent of the order |
| `RaftMachines.RaftMachine.AppendEntries` | src/raft/state_machine.cpp:540-620 | the message holds the slice from the node's next index, the term before it, and the sender's indices; `RaftSpread.EveryRequestSent` proves it of every message of every run |
| `RaftMachines.RaftMachine.Compare` | src/raft/state_machine.cpp:911-935 | a conflict is found if and only if log and request disagree in a term where both have entries |
| `RaftMachines.RaftMachine.StoreBehind` | src/raft/state_machine.cpp:905-1013 | a request that starts where the log ends is appended |
| `RaftMachines.RaftMachine.StoreOver` | src/raft/state_machine.cpp:911-1013 | a request that overlaps the log cuts it, extends it or leaves it |
| `RaftMachines.RaftMachine.StoreEntries` | src/raft/state_machine.cpp:911-1013 | the log is cut, kept or extended, and answered or written, as the handler says |
| `RaftMachines.RaftMachine.HandleAppendEntriesRequest` | src/raft/state_machine.cpp:827-1016 | equals the append handler |
| `RaftMachines.RaftMachine.HandleAppendEntriesResponse` | src/raft/state_machine.cpp:1018-1061 | equals the handler for an answer |
| `RaftMachines.RaftMachine.CountMatching` | src/raft/state_machine.cpp:676-697 | the count is the number of nodes known to have the index |
| `RaftMachines.RaftMachine.LeaderAdvanceCommitIndex` | src/raft/state_machine.cpp:676-701 | the search from the end of the log finds the highest index a majority is known to have |
| `RaftMachines.RaftMachine.LeaderAdvanceConsistencyIndex` | src/raft/state_machine.cpp:703-731 | equals the compaction step |
| `RaftMachines.RaftMachine.UpdateCommitIndex` | src/raft/state_machine.cpp:1219-1281 | the entries after the commit index are handed out in order |
| `RaftMachines.RaftMachine.UpdateConsistencyIndex` | src/raft/state_machine.cpp:1199-1217 | the log is cut at the front, leaving ten entries |
| `RaftMachines.RaftMachine.OnWritten` | src/raft/state_machine.cpp:462-483 | equals what is left to do when a write completes |
| `RaftMachines.RaftMachine.HandleTransferLeader` | src/raft/state_machine.cpp:1283-1313 | equals the message a leadership transfer causes |
| `RaftCluster.HandleElects` | src/raft/state_machine.cpp:733-795 | what every handler does to term, role and votes: votes are cast once per term, terms never fall, and a leader has a majority of votes |
| `RaftCluster.EveryRunElects` | src/raft/state_machine.cpp:733-795 | the election invariant holds after every run |
| `RaftCluster.ElectionSafety` | src/raft/state_machine.cpp:733-795 | Election Safety, section 5.2 of the Raft paper: leaders of the same term, at any two points of any run, are the same node |
| `RaftLogs.AppendToIsSlice` | src/raft/state_machine.cpp:540-620 | what is sent is a slice of the sender's log with the term before it |
| `RaftLogs.HandleLogs` | src/raft/state_machine.cpp:434-1016 | what every handler does to the log: nothing, one entry of the leader's term, or storing a slice that fits |
| `RaftLogs.NewReign` | src/raft/state_machine.cpp:622-662 | a candidate that wins a term is the first to lead it |
| `RaftLogs.EveryRunMatches` | src/raft/state_machine.cpp:434-1016 | after every run, every log and slice has, up to each entry, the past of the leader of that entry's term |
| `RaftLogs.LogMatching` | src/raft/state_machine.cpp:827-1016 | Log Matching, section 5.3 of the Raft paper, for the logs of any two nodes at any two points of a run without compaction |
| `RaftLogs.SliceMatching` | src/raft/state_machine.cpp:540-620 | a slice under way and a log that hold an entry of the same index and term agree up to it |
| `RaftLogs.SlicesMatch` | src/raft/state_machine.cpp:540-620 | so do two slices under way |
| `RaftLogs.StoredInBook` | src/raft/state_machine.cpp:911-1013 | storing a slice, with overlap, conflict or neither, keeps every entry's past equal to that of the leader of its term |
| `RaftCommit.LeaderCommits` | src/raft/state_machine.cpp:1018-1061 | in a prompt run only a success that is not a heart beat makes a leader commit more |
| `RaftCommit.MajorityCommit` | src/raft/state_machine.cpp:676-701 | with writes that complete at once and no transfer, a leader that moves its commit index to an entry of its own term has a majority each of which has held, in that term, its log up to any committed entry, of whatever term |
| `RaftCommit.CommitReachesStart` | src/raft/state_machine.cpp:622-701 | a leader that raises its commit index raises it at least to where its log ended when elected, and to an entry of its own term exactly if beyond |
| `RaftEarlyCommit.CommitsWithoutMajority` | src/raft/state_machine.cpp:648-697 | for every log of two or more entries, a run of three nodes in which a leader commits all of it, of an earlier term, and neither of the other two has ever held more than its first entry |
| `RaftCommit.StoredIsLeaders` | src/raft/state_machine.cpp:911-1013 | after storing a slice without conflict a follower has the leader's log up to its end |
| `RaftCommit.MatchingHeld` | src/raft/state_machine.cpp:1018-1047 | a node known to match an entry of the leader's own term has held the leader's log up to it, despite the optimistic start |
| `RaftCommit.EveryPromptRun` | src/raft/state_machine.cpp:622-652 | the invariant behind this holds after every such run |
| `RaftCommit.CommitHeld` | src/raft/state_machine.cpp:676-701 | the majority behind one step that moves the commit index to an entry of the own term |
| `RaftCommit.SeenHappened` | src/raft/state_machine.cpp:905-1013 | whatever the recorded history says a node held, it did hold at some point of the run |
| `RaftCommit.HappenedSeen` | src/raft/state_machine.cpp:905-1013 | and whatever a node held is in the recorded history |
| `RaftCommit.MajorityIndexHas` | src/raft/state_machine.cpp:676-697 | the index found is within the log and a majority is known to have it |
| `RaftCommit.MajorityIndexIsHighest` | src/raft/state_machine.cpp:676-697 | no higher index of the log has a majority |
| `RaftDelivery.GaplessDelivery` | src/raft/state_machine.cpp:1189-1281 | in every run, compaction included, the log has no gap after its compacted part and the indices handed out are 1, 2, 3, ... up to the commit index |
| `RaftDelivery.CommitDelivers` | src/raft/state_machine.cpp:1219-1281 | a new commit index hands out the missing indices in order and reaches what was asked within the log |
| `RaftDelivery.ConsistencyDelivers` | src/raft/state_machine.cpp:1199-1217 | compaction up to a committed index loses no index that is still to be handed out |
| `RaftDelivery.EveryRunDelivers` | src/raft/state_machine.cpp:1189-1281 | the delivery invariant holds after every run |
| `RaftVotes.LeaderEndsLatest` | src/raft/state_machine.cpp:733-795 | whoever becomes leader, in any run, was voted for by a majority each of whose logs, at the event where the vote was given, ended in a lower term than the leader's or in the same term at no later index |
| `RaftVotes.VoteGranted` | src/raft/state_machine.cpp:733-770 | a request delivered for the first time is granted if and only if the node is not in a later term, has not voted for another in this one and its log ends no later than the sender's did when it asked; otherwise it is refused with the node's term |
| `RaftVotes.EveryRunVotes` | src/raft/state_machine.cpp:339-362 | in every run a request of a candidate that still stands says how its log ends, and every vote was given to a request |
| `RaftSpread.EveryRequestSent` | src/raft/state_machine.cpp:540-620 | every append request of every run was sent at a point where its sender had exactly that term, commit index, compacted part, term before and slice of the log |
| `RaftSpread.CommitSpreads` | src/raft/state_machine.cpp:827-1016 | when a node answers a request with success, at once or after the write, its commit index is the higher of the one it had and the sender's at the point of sending, cut to its own log; it says that it agrees with the sender at least to the end of the request |
| `RaftSpread.HandleAnswers` | src/raft/state_machine.cpp:905-1013 | a success says exactly how far the request and the node's compacted part reach together, and the commit index follows the request |
| `RaftSpread.NudgeReaches` | src/raft/state_machine.cpp:1283-1313 | a leadership transfer makes a node that is not a follower send to one that lacks entries, from its own log |
| `RaftReach.LatestCanLead` | src/raft/state_machine.cpp:294-362 | from every state of every run, a node whose log ends no earlier than any other's can come to lead, in a term as high as any |
| `RaftReach.SomeoneCanLead` | src/raft/state_machine.cpp:733-795 | from every state of every run some node can come to lead |
| `RaftReach.StaleGivesWay` | src/raft/state_machine.cpp:844-851 | a leader whose request reaches a node of a later term is told of that term and becomes a follower in it |
| `RaftReplicate.EveryPayloadCanCommit` | src/raft/state_machine.cpp:434-701 | from every state of every run without compaction, in a group of two nodes or more, any payload can come to be in the log of every node at one index and be handed out there |
| `RaftReplicate.CatchUp` | src/raft/state_machine.cpp:540-1061 | a follower that agrees with the leader where the leader sends from comes to have the whole log, batch by batch, whatever it had beyond |
| `RaftReplicate.BackOff` | src/raft/state_machine.cpp:1018-1061 | one refusal, heard often enough, takes the leader back to the start of the log |
| `RaftReplicate.Pipelined` | src/raft/state_machine.cpp:540-620 | a leader does not wait for answers: unless the node has refused, the next heart beat carries the entries after those of the last one |
| `RaftReplicate.AloneNeverCommits` | src/raft/state_machine.cpp:1018-1061 | a group of one node commits nothing in any run |
| `RaftCompact.CompactionIsSafe` | src/raft/state_machine.cpp:703-731 | after a prompt run a leader that compacts drops only entries that every node has held, in the leader's term and with ten more after them |
| `RaftCompact.CompactionCanHappen` | src/raft/state_machine.cpp:1199-1217 | from every state of every run without compaction a leader can come to compact its log to ten entries |
| `RaftCompact.SettledIndexIs` | src/raft/state_machine.cpp:703-724 | the search finds the highest index that all nodes are known to have |
| `WaitGraph.StartExploring` | src/common/wait_path.cpp:134-138 | discovering a transaction opens its exploration |
| `WaitGraph.DiscoverKeepsInv` | src/common/wait_path.cpp:134-138 | numbering and pushing a new transaction keeps the search invariant |
| `WaitGraph.SawNew` | src/common/wait_path.cpp:143-145 | returning from a new successor keeps the low link the place of a reachable stack node, and a bound for all edges to the stack below |
| `WaitGraph.SawOnStack` | src/common/wait_path.cpp:146-148 | so does a successor on the stack |
| `WaitGraph.SawDone` | src/common/wait_path.cpp:146-148 | a successor in a finished component needs no change |
| `WaitGraph.StaysOnStack` | src/common/wait_path.cpp:153-155 | a transaction whose low link is below its own place stays on the stack, correctly |
| `WaitGraph.AboveIsComponent` | src/common/wait_path.cpp:153-155 | above a root, the stack is exactly one strongly connected component |
| `WaitGraph.LeavesStack` | src/common/wait_path.cpp:153-177 | one whose low link is its own place is the first of a complete component, which is what comes off the stack |
| `WaitPaths.WaitPath.Add` | include/common/tx_wait.h:45-55 | the waits of one transaction grow by those reported, the others stay |
| `WaitPaths.AddWaitEdges` | include/common/tx_wait.h:85-92 | a reported wait adds exactly its own edges to the graph |
| `WaitPaths.WaitPath.PopComponent` | src/common/wait_path.cpp:155-176 | exactly the stack from the root up is taken off, listed once each, and reported if it is more than one |
| `WaitPaths.WaitPath.StrongConnect` | src/common/wait_path.cpp:131-178 | the recursion terminates and explores a transaction completely |
| `WaitPaths.WaitPath.Enter` | src/common/wait_path.cpp:134-138 | the transaction gets the next number and is pushed |
| `WaitPaths.WaitPath.LookAt` | src/common/wait_path.cpp:139-151 | one successor less to look at, the invariant of the exploration kept |
| `WaitPaths.WaitPath.Leave` | src/common/wait_path.cpp:153-177 | the exploration ends complete, with or without a component taken off |
| `WaitPaths.WaitPath.Reset` | src/common/wait_path.cpp:106-109 | numbers and marks are cleared, the edges stay |
| `WaitPaths.WaitPath.Prepare` | src/common/wait_path.cpp:105-120 | the search starts on the graph in which every transaction waited for is a node too |
| `WaitPaths.AllFound` | src/common/wait_path.cpp:122-129 | when everything was found and nothing is left on the stack, what was reported is exactly the components |
| `WaitPaths.WaitPath.FindScc` | src/common/wait_path.cpp:104-129 | the vectors found are exactly the strongly connected components of two or more transactions, pairwise disjoint, without repetition |
| `WaitPaths.WaitPath.DetectCircle` | src/common/wait_path.cpp:31-55 | true if and only if two different transactions reach each other |
| `WaitPaths.Deadlock.AddWaitSet` | src/concurrency/deadlock.cpp:61-67 | a wait reported during a search is kept for the next one |
| `WaitPaths.ChosenMore` | src/concurrency/deadlock.cpp:170-190 | components are disjoint, so one more choice leaves one victim in each component so far |
| `WaitPaths.Deadlock.ChooseVictims` | src/concurrency/deadlock.cpp:170-190 | exactly one member of each component is chosen, and nobody else |
| `WaitPaths.Deadlock.Detect` | src/concurrency/deadlock.cpp:152-208 | the waits kept are taken in, the components of that graph are found and one victim of each joins the victims |
| `Deadlocks.DeadlockIsForGood` | src/concurrency/lock_slot.cpp:149-282 | transactions that wait for each other, behind each other or behind a holder, wait until one of them unlocks, whatever all others do |
| `Deadlocks.FoundIsDeadlock` | src/concurrency/lock_slot.cpp:369-433 | whatever the reported dependencies show as a cycle is a deadlock |
| `Deadlocks.DeadlockIsFound` | src/concurrency/lock_slot.cpp:369-433 | a deadlock none of whose transactions is an overtaken reader shows as a cycle within it |
| `Deadlocks.DetectionIsExact` | src/common/wait_path.cpp:31-55 | on rows without overtaken readers there is a deadlock if and only if two transactions reach each other in the reported dependencies |
| `Deadlocks.MissedIffOvertaken` | src/concurrency/lock_slot.cpp:369-433 | a row has an overtaken reader if and only if, with some second row that has none, it has a deadlock of which the reported dependencies show no cycle |
| `Deadlocks.DeadlockIsMissed` | src/concurrency/lock_slot.cpp:423-433 | three transactions and two rows (`BecomesCrowded`, `BecomesTaken`) that are deadlocked and show no cycle |
| `Deadlocks.BecomesCrowded` | src/concurrency/lock_slot.cpp:19-282 | the calls that lead to the row with the overtaken reader |
| `Deadlocks.BecomesTaken` | src/concurrency/lock_slot.cpp:107-132 | the calls that lead to the other row |
| `Calvin.AcceptAdds` | src/concurrency/calvin_sequencer.cpp:34-63 | a request adds its operations to what is collected, each to its own shard and in order, and nothing else |
| `Calvin.AcceptKeepsNoneEmpty` | src/concurrency/calvin_sequencer.cpp:34-63 | no transaction is collected without operations |
| `Calvin.Sequencer.HandleTxRequest` | src/concurrency/calvin_sequencer.cpp:34-63 | equals the collecting function |
| `Calvin.Sequencer.EpochBroadcastRequest` | src/concurrency/calvin_sequencer.cpp:95-158 | when idle, every shard gets one message with exactly what was collected for it, by transaction number |
| `Calvin.ListRequests` | src/concurrency/calvin_sequencer.cpp:109-157 | the message lists each transaction collected for the shard once, with its operations |
| `Calvin.Sequencer.HandleEpoch` | src/concurrency/calvin_sequencer.cpp:160-194 | an epoch is scheduled if and only if this message completes it, as a sorted permutation of what came |
| `Calvin.SortRequests` | src/concurrency/calvin_sequencer.cpp:234-237 | the result is sorted by transaction number and a permutation |
| `Calvin.Sequencer.HandleEpochAck` | src/concurrency/calvin_sequencer.cpp:196-223 | equals the handler for an acknowledgement; when the epoch is complete, `CalvinProgress.PendingMeansUnacked` proves of every run |
| `CalvinRuns.CompletesInOrder` | src/concurrency/calvin_sequencer.cpp:160-194 | an epoch completes exactly when the message of every shard has arrived, and it is then the next to be scheduled |
| `CalvinRuns.AckIsCurrent` | src/concurrency/calvin_sequencer.cpp:196-223 | an epoch that still waits for acknowledgements is the last one sent |
| `CalvinRuns.EveryRunInOrder` | src/concurrency/calvin_sequencer.cpp:95-242 | the epoch invariant holds after every run |
| `CalvinRuns.EpochsInOrder` | src/concurrency/calvin_sequencer.cpp:160-242 | every shard schedules the epochs 1, 2, 3, ... in order, each once |
| `CalvinRuns.CountersDifferByOne` | src/concurrency/calvin_sequencer.cpp:109-157 | the epoch counters of any two sequencers differ by at most one |
| `CalvinRuns.NoEpochMismatch` | src/concurrency/calvin_sequencer.cpp:215-222 | an acknowledgement that is counted is for the last epoch sent: the mismatch branch is never taken |
| `CalvinOrder.EveryRunConserves` | src/concurrency/calvin_sequencer.cpp:34-157 | the conservation invariant holds after every run |
| `CalvinOrder.ScheduledWhenLeft` | src/concurrency/calvin_sequencer.cpp:225-242 | wherever a transaction is scheduled, it is in the epoch in which it left its sequencer |
| `CalvinOrder.Conservation` | src/concurrency/calvin_sequencer.cpp:109-157 | a transaction's operations for a shard wait at its sequencer, or were sent to that shard by exactly one message, in order; all its messages are of one epoch |
| `CalvinOrder.SameOrderEverywhere` | src/concurrency/calvin_sequencer.cpp:225-249 | two transactions that meet at two shards are scheduled in the same order at both |
| `CalvinOnce.ScheduledOnce` | src/concurrency/calvin_sequencer.cpp:160-249 | a request sent to a shard is scheduled there if and only if the epoch of its message is, in that epoch and with its operations, and its transaction has no other place in the schedule |
| `CalvinOnce.EveryRunOnce` | src/concurrency/calvin_sequencer.cpp:160-194 | in every run no transaction is twice in what a shard gathers or schedules of an epoch |
| `CalvinProgress.PendingMeansUnacked` | src/concurrency/calvin_sequencer.cpp:196-223 | in every run a sequencer is pending if and only if it has sent an epoch out and some shard's acknowledgement of the last one has not been taken |
| `CalvinProgress.EveryRunCounts` | src/concurrency/calvin_sequencer.cpp:196-223 | the acknowledgements counted for the epoch under way are exactly those taken, and only scheduled epochs are acknowledged |
| `CalvinReach.EveryRunReaches` | src/concurrency/calvin_sequencer.cpp:95-242 | every message sent is under way or has arrived, and every scheduled epoch is still to be acknowledged, or its acknowledgements are under way or taken |
| `CalvinReach.RestPending` | src/concurrency/calvin_sequencer.cpp:95-223 | with nothing under way and nothing owed, a sequencer is pending if and only if another's counter is lower |
| `CalvinReach.EveryEpochReached` | src/concurrency/calvin_sequencer.cpp:95-242 | from every state of every run over a non-empty set of shards, the run can go on until every sequencer has come to any epoch number |
| `TxLog.ParseOfEncoded` | include/common/tx_log.h:120-132 | parsing an encoded log returns its records |
| `TxLog.EncodedOfParse` | include/common/tx_log.h:120-132 | whatever parses is the encoding of what it parses to |
| `TxLog.ParseOfConcat` | src/raft/state_machine.cpp:402-420 | logs may be appended to each other: the parse of a concatenation is the concatenation of the parses |
| `TxLog.Format` | include/common/tx_log.h:33-40 | the bytes at the offset become the encoded record and no others change |
| `TxLog.EncodeBatch` | src/concurrency/write_ahead_log.cpp:21-39 | the buffer has exactly the size needed and holds the encoding of the batch |
| `TxLog.BatchAsserts` | include/common/tx_log.h:48-57 | writing a batch meets the assertion on the payload address if and only if the batch is empty or its last payload has eight bytes |
| `TxLog.PayloadAsserts` | include/common/tx_log.h:48-57 | taking out all payloads meets it if and only if every payload has eight bytes |
| `TxLog.ParseLogs` | include/common/tx_log.h:120-132 | the pass with a cursor equals the parse |
| `TxLog.TimestampInPlace` | include/common/tx_log.h:84-88 | overwriting a timestamp gives the log with that one timestamp changed: the framing stays |
| `TxLog.SetTimestamp` | include/common/tx_log.h:84-88 | eight bytes change and no others |
| `TxLog.TimedKeeps` | src/replog/rl_block.cpp:334-347 | timing changes no node and no payload |
| `TxLog.LatencyAddsUp` | src/replog/rl_block.cpp:336-341 | the latency put in place of a start time and that start time add up to the current time, in 64 bits, and exactly when the start time is not later |
| `TxLog.LatencyCarried` | src/replog/rl_block.cpp:341-347 | a record without a start time gets the latency of the last record before it that has one |
| `TxLog.LatencyUnknown` | src/replog/rl_block.cpp:341-347 | before the first start time of the log there is no latency |
| `TxLog.DemuxedMore` | src/replog/rl_block.cpp:348-360 | one more record goes to its own node, behind the ones before |
| `TxLog.DemuxCommitted` | src/replog/rl_block.cpp:296-368 | the logs are timed in place, the last latency carried from one to the next, and each node of the logs is sent exactly its own records, in log order |
| `TxLog.DemuxLog` | src/replog/rl_block.cpp:319-368 | the same for one log, after the records of those before it |
| `TxLog.TimedLogsJoin` | src/replog/rl_block.cpp:309-347 | timing the logs one after the other is timing their records as one log |
| `Framing.CutAnywhere` | src/network/connection.cpp:68-217 | cutting a stream anywhere and carrying the left-over bytes forward changes nothing |
| `Framing.FramesOfEncoded` | include/common/read_write_pb.hpp:232-246 | a stream of well-formed frames followed by less than a frame splits into exactly those frames |
| `Framing.ChunksDoNotMatter` | src/network/connection.cpp:43-66 | for any bytes, the frames seen and the bytes kept depend on the joined stream only |
| `Framing.ChunkIndependence` | src/network/connection.cpp:43-66 | however a stream of frames is cut into reads, the handler sees exactly those frames, in order |
| `Framing.StreamsAreSane` | src/network/connection.cpp:96-101 | every header met in such a stream announces a length the buffer can hold |
| `Framing.LeftIsSane` | src/network/connection.cpp:172-215 | what is left over is shorter than the frame it starts, which is what makes room for the next read |
| `Framing.Connection.Receive` | src/network/connection.cpp:43-66 | after every read the handler has seen the complete frames, the buffer holds exactly the unconsumed bytes, and there is room for the next read |
| `Framing.Connection.ReceiveAll` | src/network/connection.cpp:13-66 | a stream of frames, read in pieces of any size the buffer has room for, is handed on frame by frame, in order, and nothing is left; there is always room to read on |
| `Framing.Connection.ProcessMessages` | src/network/connection.cpp:73-170 | every complete frame is handed on and the rest is kept |
| `Framing.Connection.TakeFrame` | src/network/connection.cpp:103-165 | the first frame is handed on and the read position moves behind it |
| `Framing.Connection.Compact` | src/network/connection.cpp:172-198 | the unread bytes move to the start, unchanged |
| `Framing.Connection.MakeRoom` | src/network/connection.cpp:201-215 | growing or shrinking keeps the unread bytes and leaves room |
| `Framing.Connection.Resize` | include/common/byte_buffer.h:63-66 | the buffer has the new size and the same unread bytes |
| `Framing.Connection.WriteFrame` | include/common/read_write_pb.hpp:169-230 | the encoded frame is appended to the buffer |

## Left out

- Leader Completeness and State Machine Safety of Raft: the code's optimistic match index, its commit of older terms and its cut to the start of a request do not support them.
- Crashes and recovery of Raft: votes are kept in memory, and recovery reads foreign stores.
- Raft timers, priorities and pre-votes: a timeout may come at any time.
- Timeout clean-up of coordinator and participant, read-only transactions and the geo-replication code: not part of the commit protocol proved.
- Operation results, tuples and caches: an operation finishes with any error code at any time after its grant.
- Values of latency and lock counters, tracing and debug output.
- TxCoordinators.TxCoordinator.HandleTxRequest: stops at the first shard without a leader, as the code does; the protocol over all runs takes such a coordinator to trace all shards, which sends more aborts to shards that have no participant.
- RaftLogs.LogMatching: stated for runs without compaction, because a node takes every request that starts within its compacted part to fit; `RaftLogs.SliceMatching` and `RaftLogs.SlicesMatch` likewise.
- RaftCommit.MajorityCommit: stated for writes that complete at once and without leadership transfer and compaction, because a completed write sends with the term the node has by then.
- CommitProtocol.ErrorBranchesUnreachable: covers the commit, abort and acknowledgement handlers; the assertion of the vote handler can fail, and `CommitVotes.dfy` says exactly when.
- TxCoordinators.TxCoordinator.HandleTxRmPrepare: goes on past that assertion, as the code does when assertions are off.
- TxLog.Format: goes on past the assertion on the payload address, as the code does when assertions are off; `TxLog.BatchAsserts` says when it holds.
- TxLog.EncodeBatch: likewise.
- TxLog.ParseLogs: returns no records when a payload size and the header do not fit into the log; the code adds the two in 64 bits and goes on, so that a payload size of 2 to the power of 64 less 24 makes a step of 0 and, with assertions off, the loop never ends.
- RaftMachines.RaftMachine.HandleTransferLeader: a follower's forwarding of the request and the notice to an up-to-date node are not sent; in the group of nodes a transfer may reach any node, and a timeout may come, at any time.
- RaftMachines.RaftMachine.UpdateConsistencyIndex: a call beyond the end of the log, where the code asserts, changes nothing.
- LockSlots.LockSlot.Lock: a transaction that waits for a row does not ask for it again, which the participant asserts (src/concurrency/tx_context.cpp:119) and `Serializability.DbNextKeepsLocks` proves of every run.
- Framing.Connection.Receive: every header must announce at least its own size and less than 2 to the power of 30 bytes, which `Framing.StreamsAreSane` proves of every stream of well-formed frames; a shorter length puts a buffer position before the other, which the code asserts against (include/common/byte_buffer.h:122-126), and longer ones are not modelled.
- Framing.Connection.WriteFrame: the buffer must stay below what its 32-bit positions can address.
- Liveness under fairness: what is proved is what holds once nothing is under way, and what every run can still come to; that messages do arrive and writes do complete is not modelled.
- RaftReplicate.EveryPayloadCanCommit: stated for runs without compaction, because a leader cannot send what it has dropped to a node that is behind; and for batches of at least one entry.
- RaftCompact.CompactionIsSafe: stated for the first compaction after a prompt run, as `RaftCommit.MajorityCommit` is.
- The node a Raft node takes for its leader: kept, but no modelled handler reads it.
- CommitHits.EveryClientAnswered: a request for a shard without a known leader logs no begin; the failure returned to the caller (src/concurrency/tx_coordinator.cpp:130-132) is not modelled.
- Wait-die, the exchange of dependencies between nodes and the merging of victim sets in the deadlock detector.
- Predicate locks, which the lock manager never asks for.
- Calvin execution after scheduling: the scheduler is an acknowledgement at some point after an epoch was scheduled.
- The replay of committed records to data nodes; only the messages back to the writers are modelled.
- Message trailers, magic numbers and hashes of debug builds; lengths of 2 to the power of 30 and more, beyond what the 32-bit positions allow.
- Sockets, threads, protocol buffers, configuration and storage engines.
