# A verified model of the AQ engine's execution, replay and evidence core

The AQ engine sends broker commands through a crash-recoverable journal and
worker, replays market data in backtests, ships execution evidence and live
batches to a cloud consumer, and reports statistics over what happened. This
project models those parts in Dafny and proves what they promise.

- **Durable broker commands** (`Commands`, `JournalSpec`, `JournalProofs`,
  `JournalLaws`, `CommandJournal`, `WorkerSpec` and the other `Worker…` modules). One journal, at
  most one live worker and its entry gate form a step system. A step is what the
  code does between two suspension points. Every choice made by the broker, the
  clock, the account cache, the scheduler or the strategy owner is a parameter of a
  step, and a crash may follow any step. `polls` and `delivered` are histories over
  every process life. The objects that hold this state are the classes
  `BrokerCommandJournal` and `BrokerCommandWorker`, whose methods take one step each;
  `CommandLoop` runs the loop on them and shows that the object's history is a run.
- **Backtest market scheduler** (`Streams`, `SchedulerSpec`, `Rounds`,
  `SchedulerLoops`, `Scheduler`, `SchedulerReplay`, `SchedulerSpins`): the lazily
  cleaned heap behind a k-way merge of streams, and when its loops end.
- **Evidence transfer** (`Utf8`, `EvidenceTransfer`, `EvidenceLaws`): chunking at
  UTF-8 boundaries and assembly in any order.
- **Live batch codec** (`Wire`, `WireLaws`, `LiveBatch`, `LiveBatchProofs`,
  `LiveBatchLaws`, `LiveBatchCodec`): the hand-written protobuf encoder, its length
  pass, and the decoder, after the Protocol Buffers Encoding specification.
- **Recovery slot** (`RecoverySpec`, `RecoveryTask`): one owned background attempt,
  shared by concurrent callers.
- **Statistics, divergence, ledgers** (`Statistics`, `Divergence`, `FillHistory`,
  `FillHistoryLaws`, `PositionLedger`, `PositionLaws`, `PositionMeaning`,
  `CashFlowSpec`, `CashFlowLaws`, `CashFlow`, `TradePairing`, `AlphaScope`).

Modelling conventions: `f64` is `real`, so every value is finite and arithmetic is
exact. A UUIDv5 entry identity is the triple it is derived from. JSON is a codec, and a
result that needs it asks only that it reads back the values at hand: no text can hold
every real. A command's JSON length is a field of the command. The digest that
recognises a repeated cash-flow page is the page itself; for the evidence checksum a
lemma says what it assumes of it. Time is an integer handed in by the caller.

Four promises turned out to hold only under a condition, and are stated that way:

- "No task can appear while the drain lock is held" fails for a shutdown that took
  the lock after the slot had been enabled again. `RecoverySpec.HeldLockStillSpawns`
  gives the run, and `RecoverySpec.QuietHoldIffClosed` the exact condition.
- "Matched plus remaining quantity is the entry quantity" fails once an order leaves
  the pairing book with a residue of at most `f64::EPSILON`.
  `TradePairing.DustIsDropped` gives the log, and `TradePairing.ConservedIffNoDust`
  the exact condition.
- `advance_market_step` is public and takes any step. Once the heap has been built, an
  advance of a stream that was not handed out and has bars left puts a second entry on
  it; `Scheduler.BacktestState.Advance` states exactly when the heap stays fit. The next
  request may then never return: `SchedulerSpins.AdvancedTwiceSpins` gives the calls,
  one step asked for and advanced twice, and `SchedulerSpins.AdvanceNeverReturnsIff`
  the exact condition for any step. At the first request, and at the first after a load, the
  heap is rebuilt, so no advance then can hang it. The only caller in the repository
  advances what it was handed, once.
- The two pairing passes differ on an exit that matches nothing.
  `TradePairing.EmptyExitSplitsPasses` gives the log, and
  `TradePairing.PassesAgreeIff` the exact condition.

## Model

| member | source | states |
|---|---|---|
| Commands.EntryIdentityIsTheIntent | src/core/broker/commands.rs:271-277 | Two valid submissions of one scope share an identity exactly when they carry the same client order id |
| Commands.ReissueKeepsIdentity | src/core/broker/commands.rs:295-324 | Building an entry again from padded scope names gives the same identity, and the stored scope is already trimmed |
| Commands.ValidExactly | src/core/broker/commands.rs:334-464 | Exactly the commands that may be journalled and sent, condition by condition |
| Text.TrimIdempotent | src/core/broker/commands.rs:303-304 | Trimming a trimmed name changes nothing |
| JournalProofs.PrepareWrites | src/core/broker/command_journal.rs:295-328 | Prepare writes a new intent as queued at the caller's queue time, with no dispatch time and no result, or reports the durable disposition of a known one and writes nothing; it refuses only a different command under a known identity |
| JournalLaws.DispatchExactly | src/core/broker/command_journal.rs:345-363 | A row is marked dispatched exactly when it is queued; a refusal changes nothing |
| JournalLaws.DeferExactly | src/core/broker/command_journal.rs:364-379 | A dispatch is taken back exactly when the row is dispatching with that very dispatch time |
| JournalLaws.CompleteExactly | src/core/broker/command_journal.rs:380-418 | A result is stored exactly when it is about the row as journalled and no other result is there; an equal one is accepted and changes nothing |
| JournalLaws.ConfirmExactly | src/core/broker/command_journal/reconciliation.rs:11-66 | A confirmed order replaces an ambiguous result exactly when it answers that submission; the same order again is accepted and changes nothing; everything else is refused |
| JournalLaws.BeginExactly | src/core/broker/command_journal/cancellation_recovery.rs:17-80 | A retry is claimed exactly for a cancellation whose order is proved still pending, and gets the next attempt number only while its result is ambiguous |
| JournalLaws.FinishExactly | src/core/broker/command_journal/cancellation_recovery.rs:81-135 | A retry is concluded exactly once under its attempt, and settles the command only on an acknowledgement |
| JournalLaws.IntentsExactly | src/core/broker/command_journal/checkpoints.rs:214-357 | A batch of intents is accepted exactly when all agree with what is known, and then adds the first of each new identity as queued |
| JournalLaws.AppliableExactly | src/core/broker/command_journal/checkpoints.rs:214-357 | Exactly the results an owner may report as applied |
| JournalLaws.AppliedExactly | src/core/broker/command_journal/checkpoints.rs:214-357 | Applying results changes exactly the state of the named rows |
| JournalLaws.BatchExactly | src/core/broker/command_journal/checkpoints.rs:214-357 | A checkpoint batch is accepted exactly when all its parts are, leaves exactly their effects, and a refused one leaves nothing |
| JournalProofs.DispatchWrites | src/core/broker/command_journal.rs:345-359 | A queued row becomes dispatching with its time and nothing else changes |
| JournalProofs.DeferWrites | src/core/broker/command_journal.rs:364-378 | A dispatching row, given its own dispatch time, goes back to queued without a time; nothing else changes |
| JournalProofs.CompleteWrites | src/core/broker/command_journal.rs:381-415 | A completion that fits its unfinished row is accepted and stored |
| JournalProofs.CompleteSharpens | src/core/broker/command_journal.rs:381-415 | Whatever completion is offered, evidence only sharpens; what is stored is consistent exactly when its outcome agrees with its dispatch time |
| JournalProofs.ConfirmWrites | src/core/broker/command_journal/reconciliation.rs:11-66 | Confirmation stores the broker's order as the result of a matching row, keeps its queue time and state, never replaces a final result, and a refusal changes nothing |
| JournalProofs.BeginWrites | src/core/broker/command_journal/cancellation_recovery.rs:17-79 | Claiming a retry touches no command row and needs a stored, still ambiguous completion |
| JournalProofs.FinishWrites | src/core/broker/command_journal/cancellation_recovery.rs:81-135 | A claimed retry of an ambiguous Cancel always finds its claim; only an acknowledgement replaces the stored result; an applied row is left alone |
| JournalProofs.FinishSharpens | src/core/broker/command_journal/cancellation_recovery.rs:81-135 | Whatever retry result is offered, the journal stays consistent and evidence only sharpens |
| JournalProofs.CheckpointKeeps | src/core/broker/command_journal/checkpoints.rs:214-357 | A checkpoint batch only queues intents and marks settled results applied, and a refusal rolls all of it back |
| JournalProofs.IntentsKeep | src/core/broker/command_journal/checkpoints.rs:231-271 | Intents only add queued rows; every known row is kept as it was |
| JournalProofs.AppliedKeeps | src/core/broker/command_journal/checkpoints.rs:309-353 | Receipts only turn rows that have a result into applied ones |
| JournalProofs.Readable | src/core/broker/command_journal.rs:437-465 | Every row of a consistent journal decodes without an error |
| JournalSpec.EvolvesTransitive | src/core/broker/command_journal.rs:380-415 | Sharpening of durable evidence composes over any number of writes |
| CommandJournal.QueueIntents | src/core/broker/command_journal/checkpoints.rs:231-271 | The intent loop inserts each new intent once and refuses a different command under a known identity |
| CommandJournal.MarkApplied | src/core/broker/command_journal/checkpoints.rs:308-353 | The receipt loop marks settled receipts applied and refuses unsettled ones |
| CommandJournal.BrokerCommandJournal.constructor | src/core/broker/command_journal.rs:84-120 | An empty journal is consistent |
| CommandJournal.BrokerCommandJournal.Find | src/core/broker/command_journal.rs:330-343 | Reading a row in place agrees with the decoded row or its decode error |
| CommandJournal.BrokerCommandJournal.PrepareIntent | src/core/broker/command_journal.rs:295-328 | The in-place update is the specified one; a new identity gets a queued row at the caller's queue time with no dispatch and no result, rows only sharpen, and a known identity is left untouched |
| CommandJournal.BrokerCommandJournal.MarkRowDispatched | src/core/broker/command_journal.rs:345-359 | The in-place update is the specified one and keeps the journal consistent |
| CommandJournal.BrokerCommandJournal.DeferRow | src/core/broker/command_journal.rs:364-378 | The in-place update is the specified one, keeps the journal consistent and only sharpens evidence |
| CommandJournal.BrokerCommandJournal.CompleteRow | src/core/broker/command_journal.rs:381-415 | After success the row holds exactly this completion; a refusal changes no row; evidence only sharpens, and the journal stays consistent exactly when the outcome agrees with the dispatch time |
| CommandJournal.BrokerCommandJournal.ConfirmSubmission | src/core/broker/command_journal/reconciliation.rs:11-66 | The in-place update is the specified one and only sharpens evidence |
| CommandJournal.BrokerCommandJournal.BeginCancelRetry | src/core/broker/command_journal/cancellation_recovery.rs:17-79 | The claim is numbered after the last one and touches no command row |
| CommandJournal.BrokerCommandJournal.FinishCancelRetry | src/core/broker/command_journal/cancellation_recovery.rs:81-135 | The in-place update is the specified one; a refusal changes no command row, the journal stays consistent and evidence only sharpens |
| CommandJournal.BrokerCommandJournal.PersistBatch | src/core/broker/command_journal/checkpoints.rs:214-357 | The whole batch commits as specified or nothing changes |
| CommandJournal.BrokerCommandJournal.CompleteStop | src/core/broker/command_journal/lifecycle.rs:92-120 | A stop completes exactly when one is requested or done, every command is applied and no exposure is left |
| CommandJournal.BrokerCommandJournal.BeginEpoch | src/core/broker/command_journal/lifecycle.rs:122-160 | A new epoch begins exactly after a completed stop with nothing unresolved |
| CommandWorker.BrokerCommandWorker.constructor | src/core/broker/command_worker.rs:911-931 | A worker over a durably stopped journal starts with its gate stopped |
| CommandWorker.BrokerCommandWorker.TryEnqueue | src/core/broker/command_worker.rs:568-600 | A command is admitted exactly when it is valid, of this scope, not a new entry behind a stopped gate, and its lane has room; it then gets the next ticket and the last place of that lane, and a refused one changes nothing |
| CommandWorker.BrokerCommandWorker.Gatekeep | src/core/broker/command_worker.rs:351-374 | When a stop, a cancel or a deadline returns, its barrier stands at the gate; a release drops cancel mark and deadline together |
| CommandWorker.BrokerCommandWorker.Choose | src/core/broker/command_worker.rs:964-1042 | A parked clean-up goes first while its account is ready, then the clean-up lane, then a parked entry that is ready, then the entry lane; nothing is chosen only when nothing can be taken |
| CommandWorker.BrokerCommandWorker.FindDue | src/core/broker/command_worker.rs:234-245 | The scan finds the first of the earliest look-ups that is due, if any |
| CommandWorker.BrokerCommandWorker.RescheduleDue | src/core/broker/command_worker.rs:977-1005 | Without a confirmation a Cancel re-enters an empty control slot, an unresolved submission waits longer, a settled one is forgotten |
| CommandWorker.BrokerCommandWorker.ConfirmDue | src/core/broker/command_worker.rs:1006-1030 | A look-up that found the broker's order replaces the ambiguous result and goes to the owner |
| CommandWorker.BrokerCommandWorker.RunTimer | src/core/broker/command_worker.rs:977-1036 | The earliest due look-up is confirmed, delayed, requeued or forgotten, as its row and the broker's answer say |
| CommandWorker.BrokerCommandWorker.PrepareCommand | src/core/broker/command_worker.rs:1051-1075 | A durable result is replayed, anything else goes on to admission |
| CommandWorker.BrokerCommandWorker.ConfirmResult | src/core/broker/command_worker.rs:884-909 | A lost submit response is resolved by the broker's receipt without resubmitting |
| CommandWorker.BrokerCommandWorker.MayRetry | src/core/broker/command_worker.rs:1076-1105 | A Cancel may be retried exactly when ambiguous, within both budgets, and read as pending under its own order id |
| CommandWorker.BrokerCommandWorker.Decide | src/core/broker/command_worker.rs:1127-1174 | A dispatching row is always judged first, then the gate, then the margin refusal; an entry that passes is not gated |
| CommandWorker.BrokerCommandWorker.JudgeCommand | src/core/broker/command_worker.rs:1161-1174 | A verdict without dispatch keeps the row's own dispatch time |
| CommandWorker.BrokerCommandWorker.ParkCommand | src/core/broker/command_worker.rs:1186-1246 | The command returns to the slot of its own lane; a clean-up that preempts a waiting entry moves to the control slot |
| CommandWorker.BrokerCommandWorker.DispatchCommand | src/core/broker/command_worker.rs:1266-1278 | The dispatch is durable before the command may be polled; a refused write ends the worker |
| CommandWorker.BrokerCommandWorker.ClaimRetry | src/core/broker/command_worker.rs:1266-1274 | A proven-pending Cancel claims a numbered attempt before any transport, or is dropped |
| CommandWorker.BrokerCommandWorker.FirstPollOf | src/core/broker/command_worker.rs:1297-1381 | Gate, snapshot and poll are one section; a submission is polled only when nothing is stopped or cancelled and the owner still listens |
| CommandWorker.BrokerCommandWorker.SettleUnpolled | src/core/broker/command_worker.rs:1406-1443 | A refusal keeps a retry's original dispatch time and clears an ordinary one; otherwise the command is parked, or the stop made durable |
| CommandWorker.BrokerCommandWorker.DeferCommand | src/core/broker/command_worker.rs:1406-1443 | Proof of no poll restores the queued row, then the refusal is concluded, the command parked, or the worker stopped when the account changed |
| CommandWorker.BrokerCommandWorker.CompleteCommand | src/core/broker/command_worker.rs:1446-1466 | The result is durable before the hand is settled |
| CommandWorker.BrokerCommandWorker.ConcludeRetry | src/core/broker/command_worker.rs:1456-1463 | A retry's result is recorded and the stored result stands unless acknowledged |
| CommandWorker.BrokerCommandWorker.PublishResult | src/core/broker/command_worker.rs:1467-1474 | An ambiguous result within its budget schedules another look-up, once per identity |
| CommandWorker.BrokerCommandWorker.DeliverResult | src/core/broker/command_worker.rs:1485-1494 | The owner receives exactly the completion in hand, once; a closed receiver ends the worker |
| CommandWorker.BrokerCommandWorker.EndWorker | src/core/broker/command_worker.rs:1496-1503 | A requested stop is durable before the worker is gone, and entries are refused from then on |
| CommandWorker.BrokerCommandWorker.Perform | src/core/broker/command_worker.rs:911-1503 | Any enabled step of worker, owner or requests, taken on the object, leads exactly to the state the step system names |
| CommandLoop.WorkGetsOn | src/core/broker/command_worker.rs:1051-1494 | Every piece of work brings the command in hand strictly nearer to being delivered, parked or dropped |
| CommandLoop.NextWork | src/core/broker/command_worker.rs:1051-1494 | For every command in hand and whatever the world answers, the loop has a next step that is enabled |
| CommandLoop.NextAdmission | src/core/broker/command_worker.rs:1127-1278 | The loop judges, notices an account change, parks or dispatches, each exactly under its own condition |
| CommandLoop.NextAnswer | src/core/broker/command_worker.rs:1074-1120 | A lost submission that is confirmed is confirmed, a provable cancellation is retried, anything else is published |
| CommandLoop.NextTransport | src/core/broker/command_worker.rs:1280-1405 | The dispatched command is polled as the world's verdict says, and the broker's answer is what the call finishes with |
| CommandLoop.NextTask | src/core/broker/command_worker.rs:964-1050 | With a free hand the loop leaves when the owner has, else takes, in this order, a ready parked clean-up, the clean-up lane, a due look-up, a ready parked entry, the entry lane, and waits only when there is none |
| WorkerEvidence.StepTold | src/core/broker/command_worker.rs:1051-1494 | Every step of the system keeps each stored, held and delivered result among those some step said |
| WorkerEvidence.ResultsWereSaid | src/core/broker/command_worker.rs:1382-1466 | Over every run from a new system, each stored or delivered result was said by a step about that very command (the broker's answer, a confirmation, a gate or margin refusal), and each dispatch time was written by a dispatch of it |
| WorkerPaths.NewIsQueued | src/core/broker/command_worker.rs:1051-1075 | A command the journal has not seen gets a queued row and goes on to admission |
| WorkerPaths.QueuedIsDispatched | src/core/broker/command_worker.rs:1266-1278 | Dispatching writes the time into that row, and only there |
| WorkerPaths.PolledUnlessRefused | src/core/broker/command_worker.rs:1297-1381 | The first poll calls the broker unless the gate refuses the entry |
| WorkerPaths.NewCommandIsPolled | src/core/broker/command_worker.rs:1051-1381 | A new command behind an open gate reaches the broker, once, with its row dispatching |
| WorkerPaths.AnswerConcludes | src/core/broker/command_worker.rs:1382-1405 | The broker's answer is what the command concludes with |
| WorkerPaths.AnswerIsStored | src/core/broker/command_worker.rs:1382-1466 | The broker's answer is the durable result of its row and of no other |
| WorkerPaths.SettledIsDelivered | src/core/broker/command_worker.rs:1467-1494 | A settled result is delivered to its owner under its ticket, and the hand is free again |
| WorkerPaths.PublishSchedules | src/core/broker/command_worker.rs:207-223 | An ambiguous submission or cancellation is looked up again a second later, unless it is waiting already, was retried six times, or 256 wait |
| WorkerPaths.LookUpsAreSpaced | src/core/broker/command_worker.rs:247-257 | Look-ups wait 1, 2, 5, 15, 30 and 60 seconds, and then end |
| WorkerPaths.RetryIsClaimed | src/core/broker/command_worker.rs:1266-1274 | A cancellation proved still pending is claimed as the next attempt before it is sent |
| WorkerPaths.RetrySettles | src/core/broker/command_worker.rs:1449-1463 | An acknowledged retry becomes the durable result, and its count is forgotten |
| WorkerPaths.UnpolledIsUndone | src/core/broker/command_worker.rs:1406-1443 | A dispatch whose call was never polled is queued again as if it had not been |
| WorkerPaths.OldestFirst | src/core/broker/command_worker.rs:964-1042 | Each lane hands out its oldest command and keeps the rest |
| WorkerPaths.TimerExactly | src/core/broker/command_worker.rs:234-257 | What a due look-up changes, for a resolved, a pending and a lost command |
| WorkerPaths.AdmittedExactly | src/core/broker/command_worker.rs:568-600 | Exactly the commands admitted; clean-up passes a stopped gate |
| WorkerPaths.GateTouchesItsOwn | src/core/broker/command_worker.rs:332-374 | A request about one identity changes nothing about another, and the gate never reopens |
| WorkerPaths.GateSays | src/core/broker/command_worker.rs:351-374 | What cancelling, timing and releasing an entry leave for its identity |
| WorkerPaths.UnpolledSaysWhy | src/core/broker/command_worker.rs:1297-1381 | A transport that is not polled leaves the account's refusal as the outcome, or none when a snapshot is unavailable |
| WorkerPaths.HeardExactly | src/core/broker/command_worker.rs:790-851 | Exactly what may be heard from a polled transport, first dispatch or retry |
| WorkerPaths.WaitsInItsLane | src/core/broker/command_worker.rs:1175-1265 | What waits for the account waits in its own lane's slot; a clean-up may take the hand of a waiting entry |
| WorkerPaths.FoundOrderIsDelivered | src/core/broker/command_worker.rs:1005-1030 | An order found by a due look-up is delivered, and its command looked up no more |
| WorkerPaths.FailureIsReported | src/core/broker/command_worker.rs:1052-1071 | A command that cannot be prepared is reported under its ticket; a failing journal ends the worker |
| WorkerPaths.StartsClosedUnlessRunning | src/core/broker/command_worker.rs:653-728 | A worker starts with an empty hand and lanes of 1 to 4096 places, its gate closed exactly unless the journal is running |
| WorkerPaths.LeavingKeepsStop | src/core/broker/command_worker.rs:1497-1504 | A requested stop is durable before the worker is gone, and a changed account stops the execution |
| CommandLoop.DriveCommand | src/core/broker/command_worker.rs:964-1494 | A command taken is delivered, parked or dropped, or the worker has ended, within sixteen turns, whatever owner and requests do meanwhile |
| CommandLoop.RunWorker | src/core/broker/command_worker.rs:911-1503 | However long the object runs, its history is a run of the step system: it stays safe, evidence only sharpens, no identity is polled twice, and a stopped gate lets no submission through |
| WorkerSpec.NextDue | src/core/broker/command_worker.rs:234-245 | The chosen look-up is due, none is due earlier, and none means nothing is due |
| WorkerSteps.StepKeeps | src/core/broker/command_worker.rs:931-1495 | Every enabled step keeps the invariant of reachable states and only sharpens the durable table |
| WorkerSteps.DispatchKeeps | src/core/broker/command_worker.rs:1266-1277 | A dispatch is written only for a row never polled before, and the write is never refused |
| WorkerSteps.HalfRetryKeeps | src/core/broker/command_journal/cancellation_recovery.rs:102-132 | A crash between the two writes that end a retry keeps the invariant and every command row |
| WorkerSteps.CompleteKeeps | src/core/broker/command_worker.rs:1449-1466 | The worker never builds a completion that its own journal rejects |
| WorkerSteps.NeverPolled | src/core/broker/command_worker.rs:1406-1448 | A row without a dispatch time was never polled |
| WorkerConservation.StepConserves | src/core/broker/command_worker.rs:923-998 | Every step keeps each accepted ticket in exactly one place |
| WorkerTickets.StepNames | src/core/broker/command_worker.rs:1485-1494 | Every step keeps each ticket with the command accepted under it, and what is sent for a ticket carries that command's receipt |
| WorkerConservation.OnlyRetriesDrop | src/core/broker/command_worker.rs:1268-1274 | A command leaves without an event only at the end of a retry of a Cancel that already had a result |
| WorkerBudget.StepBudget | src/core/broker/command_worker.rs:1084-1093 | Every step keeps the retry counters ahead of the retries actually polled |
| WorkerRuns.RunSharpens | src/core/broker/command_journal.rs:380-456 | Over every run results go absent, ambiguous, final, and a final result never changes |
| WorkerRuns.SafeStep | src/core/broker/command_worker.rs:931-1495 | Every step keeps all invariants together: journal, polls, conservation, retry budget |
| WorkerRuns.StepPolls | src/core/broker/command_worker.rs:1297-1312 | Only a first poll with an open gate adds to the history of polls, and it adds exactly that command |
| WorkerRuns.BarredStep | src/core/broker/command_worker.rs:1279-1312 | One step keeps a barrier up and makes no poll it forbids |
| WorkerRuns.GateLinearises | src/core/broker/command_worker.rs:1279-1312 | After a stop, cancel or deadline takes effect, no first poll it forbids happens in that worker's life until the owner releases it |
| WorkerRuns.GateRaises | src/core/broker/command_worker.rs:351-374 | The owner's calls put those barriers up at any moment |
| WorkerOrphans.OrphanNeverReexecuted | src/core/broker/command_worker.rs:1161-1164 | A row found dispatching after a crash is never executed again: along every run the first result it gets is ambiguous, only the broker's own order or acknowledgement replaces it, and only a guarded Cancel retry polls again |
| WorkerOrphans.FirstResultIsAmbiguous | src/core/broker/command_worker.rs:1161-1164 | Whichever step first records a result for such a row, the result is ambiguous |
| WorkerOrphans.CrashOrphans | src/core/broker/command_worker.rs:1161-1164 | A crash with a dispatching row leaves such an orphan |
| WorkerTheorems.ReachableSafe | src/core/broker/command_worker.rs:911-1503 | Every state any run reaches from an empty journal satisfies all invariants |
| WorkerTheorems.AtMostOnce | src/core/broker/command_worker.rs:1266-1424 | Over every run, crashes and restarts included, each identity is polled at most once, guarded Cancel retries apart |
| WorkerTheorems.OneOrderPerEntryIntent | src/core/broker/commands.rs:306-313 | No two submissions polled in any life share a client order id |
| WorkerTheorems.UndispatchedNeverPolled | src/core/broker/command_worker.rs:1298-1381 | A queued row, or a result without dispatch time, belongs to a command never polled |
| WorkerTheorems.CancelledBeforeDispatchNeverPolled | src/core/broker/command_worker.rs:1406-1448 | A result cancelled before dispatch carries no dispatch time and was never polled |
| WorkerTheorems.StoredResultsFit | src/core/broker/command_journal.rs:437-465 | A row has a result exactly when completed or applied, and the result names its own intent and times |
| WorkerTheorems.DeliveredIsStored | src/core/broker/command_worker.rs:1486-1494 | A delivered completion equals the one stored at delivery |
| WorkerTheorems.DeliveredStaysTrue | src/core/broker/command_worker.rs:1637-1655 | Anything delivered is still stored, or was ambiguous and is now final |
| WorkerTheorems.OwnWritesSucceed | src/core/broker/command_worker.rs:1406-1466 | Dispatch, deferral, completion and retry result of the command in hand are never refused by the journal |
| WorkerTheorems.NothingLostNothingDoubled | src/core/broker/command_worker.rs:1195-1264 | Each accepted command waits in one place or was answered once, with an event that carries its own receipt, and parking always finds its slot empty |
| WorkerTheorems.RetriesBounded | src/core/broker/command_worker.rs:1084-1087 | No Cancel is retried at the broker more than six times in any one life |
| WorkerTheorems.DurableStopOutlivesRestart | src/core/broker/command_journal/lifecycle.rs:72-160 | Once a stop is durable no submission is polled in any life until a new epoch begins |
| WorkerTheorems.StopBetweenDispatchAndPoll | src/core/broker/command_worker.rs:1279-1312 | A stop between dispatch write and first poll leaves the entry unpolled and concluded as cancelled before dispatch |
| WorkerTheorems.StoppedGateRefuses | src/core/broker/command_worker.rs:1297-1312 | With the stop first, the first poll of a submission changes nothing but the hand |
| Streams.LabelInjective | src/core/utils/timeframe.rs:91-100 | Distinct timeframes never share a label |
| Streams.LabelMeans | src/core/utils/timeframe.rs:91-100 | A label is the amount in decimal followed by s, m, h, d or mo |
| Streams.BeforeMeans | src/core/broker/backtest_state.rs:29-37 | The order of texts is dictionary order |
| Streams.KeyMeans | src/core/broker/backtest_state.rs:29-37 | Streams are ordered by symbol, then by label text |
| Streams.EntryTotal | src/core/broker/backtest_state.rs:29-37 | The schedule order is total |
| Streams.EntryTransitive | src/core/broker/backtest_state.rs:29-37 | The schedule order is transitive |
| SchedulerSpec.RepushStale | src/core/broker/backtest_state.rs:171-177 | Replacing a stale entry keeps the heap fit and strictly reduces what is stale |
| SchedulerSpec.PopCurrent | src/core/broker/backtest_state.rs:171-194 | Taking a current entry leaves a fit heap with that stream out and no fewer stale entries |
| SchedulerSpec.EmptyMeansExhausted | src/core/broker/backtest_state.rs:171-177 | A fit heap is empty only when every stream is exhausted |
| SchedulerSpec.SumCompares | src/core/broker/backtest_state.rs:270-280 | Bounded positions reach the total only when each reaches its own length |
| SchedulerLoops.SearchEnds | src/core/broker/backtest_state.rs:171-177 | Whatever the heap holds, the search for a first entry ends |
| SchedulerLoops.EndsIffNoneStuck | src/core/broker/backtest_state.rs:181-194 | With nothing earlier on the heap and nothing stale of a stream due now, the same-time loop ends exactly when no current entry of its time is there once more than collected for |
| SchedulerLoops.StuckForEver | src/core/broker/backtest_state.rs:181-194 | A second copy of a current entry is put back in every round, and the loop never ends |
| SchedulerSpins.FitReturns | src/core/broker/backtest_state.rs:168-194 | From a heap with one entry a stream, stale ones included, both loops end |
| SchedulerSpins.NeverReturnsIff | src/core/broker/backtest_state.rs:168-194 | From any heap of entries that are current or behind, the request never returns exactly when a stream has two entries and none with an entry is due before it |
| SchedulerSpins.AdvanceNeverReturnsIff | src/core/broker/backtest_state.rs:243-268 | Over strictly timed streams, from any state the scheduler keeps and whatever step is advanced, the next request never returns exactly when some stream with bars left is owed two entries and none owed one is due before it |
| SchedulerSpins.AdvanceAny | src/core/broker/backtest_state.rs:243-268 | The same of the object, in terms of its positions and handed-out streams before the call |
| SchedulerSpins.AdvancedTwiceSpins | src/core/broker/backtest_state.rs:243-268 | One stream of three bars, loaded, asked for a step, and that step advanced twice: the next request never returns |
| SchedulerSpec.ExactHeap | src/core/broker/backtest_state.rs:311-365 | Between steps the heap holds exactly one entry per unfinished stream, the current one |
| SchedulerSpec.CountersAgree | src/core/broker/backtest_state.rs:270-280 | Cached counters say complete exactly when no stream has a bar left |
| Scheduler.BacktestState.Load | src/core/broker/backtest_state.rs:124-133 | Loading at any time restarts that stream and forgets the schedule, with the step that may be out |
| Scheduler.BacktestState.constructor | src/core/broker/backtest_state.rs:90-113 | An empty schedule is fit |
| Scheduler.BacktestState.ScheduleAll | src/core/broker/backtest_state.rs:311-336 | Scheduling every stream gives a fit heap of current entries |
| Scheduler.BacktestState.Initialize | src/core/broker/backtest_state.rs:311-336 | Heap and counters are set up once and fit the loaded streams |
| Scheduler.BacktestState.CountBars | src/core/broker/backtest_state.rs:317-328 | The counters are the sums of all lengths and of all positions |
| Scheduler.BacktestState.TakeFirst | src/core/broker/backtest_state.rs:171-177 | The first loop ends with the least current entry, or with nothing exactly when all streams are exhausted |
| Scheduler.BacktestState.TakeSame | src/core/broker/backtest_state.rs:181-194 | The second loop ends and collects every stream due at that time, in order |
| Scheduler.NothingMissed | src/core/broker/backtest_state.rs:178-194 | Once the heap holds only later entries, no stream is due earlier and none due at this time was left out |
| Scheduler.BacktestState.Build | src/core/broker/backtest_state.rs:196-241 | The step carries the current bar of each collected stream; the execution bar of a symbol is that of its last executable event, and no other symbol has one |
| Scheduler.BuiltIsStep | src/core/broker/backtest_state.rs:196-241 | What was collected and built is the step the merge asks for |
| Scheduler.BacktestState.Next | src/core/broker/backtest_state.rs:168-241 | A step holds exactly the streams whose current bar has the least remaining time, in (symbol, label) order, with each symbol's execution bar from its last executable event; none exactly when all are exhausted |
| Scheduler.BacktestState.Advance | src/core/broker/backtest_state.rs:243-268 | Any step moves exactly its unfinished streams; the schedule stays fit exactly when those streams were handed out, or end; the step just handed out is taken back whole |
| Scheduler.BacktestState.AdvanceStream | src/core/broker/backtest_state.rs:250-261 | One stream moves on by one bar, never past its end, with its counter, and is scheduled again |
| Scheduler.EventFits | src/core/broker/backtest_state.rs:243-268 | After one event the heap stays fit if that stream was out or has ended, and holds two entries of it otherwise |
| Scheduler.BacktestState.IsComplete | src/core/broker/backtest_state.rs:270-280 | True exactly when every stream is exhausted, before and after initialisation |
| Scheduler.BacktestState.StepStreams | src/core/broker/mod.rs:974-1014 | One round hands out and consumes one such step, execution bars included |
| SchedulerReplay.Replay | src/core/broker/mod.rs:974-1014 | For strictly timed streams the log is the merge: the event of every remaining bar exactly once, at the bar's own time and with its stream's flags, and nothing else, in (timestamp, symbol, label) order |
| SchedulerReplay.StepReplays | src/core/broker/mod.rs:974-1014 | Appending a step keeps the log ordered, true to its streams, and complete up to the new positions |
| SchedulerReplay.MergeIsUnique | src/core/broker/backtest_state.rs:29-37 | Two ordered logs of the same events are equal |
| SchedulerReplay.MergeHoldsEachOnce | src/core/broker/backtest_state.rs:168-268 | A merge holds the event of every remaining bar exactly once and no other |
| SchedulerReplay.OneMerge | src/core/broker/mod.rs:974-1014 | Any ordered log of the same remaining bars is the log the replay yields |
| Utf8.CutAtBoundary | live-sync-protocol/src/execution_evidence_transfer.rs:113-118 | Cutting well-formed UTF-8 at a character boundary leaves two well-formed texts |
| Utf8.BoundaryNear | live-sync-protocol/src/execution_evidence_transfer.rs:114-116 | A boundary lies at most three bytes back |
| Utf8.TextIsValid | live-sync-protocol/src/execution_evidence_transfer.rs:110-119 | Every list of Unicode scalar values, written as RFC 3629 writes them, is well-formed |
| Utf8.ValidIsText | live-sync-protocol/src/execution_evidence_transfer.rs:110-119 | Every well-formed text is such a list |
| EvidenceTransfer.EncodedPage | live-sync-protocol/src/execution_evidence_transfer.rs:37-86 | Succeeds exactly for admitted pages, the embedded position accounting included, and returns their text |
| EvidenceTransfer.FaithfulIsMet | live-sync-protocol/src/execution_evidence_transfer.rs:88-99 | Every page has a codec that reads it back, so what is asked of the codec can be met |
| EvidenceTransfer.NextEnd | live-sync-protocol/src/execution_evidence_transfer.rs:113-116 | The inner loop ends at a boundary at most three bytes short of a full chunk |
| EvidenceTransfer.Bodies | live-sync-protocol/src/execution_evidence_transfer.rs:110-119 | The bodies join to the text; each is well-formed, not empty and at most one chunk |
| EvidenceTransfer.ChunkBound | live-sync-protocol/src/execution_evidence_transfer.rs:9-11 | Thirty-seven chunks always suffice |
| EvidenceTransfer.ThirtySevenNeeded | live-sync-protocol/src/execution_evidence_transfer.rs:9-11 | Some text within the limit fits in no cut of fewer than thirty-seven chunks |
| EvidenceTransfer.Chunks | live-sync-protocol/src/execution_evidence_transfer.rs:105-140 | Chunking a page the codec can read back succeeds exactly when the page is admitted, with one to thirty-seven valid chunks that cut its text |
| EvidenceTransfer.Gather | live-sync-protocol/src/execution_evidence_transfer.rs:181-214 | The receiver's loop holds each part once, or has a reason to refuse the set |
| EvidenceTransfer.PartsMeaning | live-sync-protocol/src/execution_evidence_transfer.rs:202-208 | Of agreeing chunks, the parts hold each index received, with its body |
| EvidenceTransfer.JoinParts | live-sync-protocol/src/execution_evidence_transfer.rs:218 | Joining gives the parts in index order, and their counted bytes are its length |
| EvidenceTransfer.OpenText | live-sync-protocol/src/execution_evidence_transfer.rs:219-240 | Opening succeeds exactly for a text whose checksum, page and envelope agree |
| EvidenceTransfer.Assemble | live-sync-protocol/src/execution_evidence_transfer.rs:172-241 | Assembly succeeds exactly for accepted sets and returns their page |
| EvidenceTransfer.RoundTrip | live-sync-protocol/src/execution_evidence_transfer.rs:172-241 | Chunks in any order, exact duplicates included up to seventy-four in all, assemble to the page that was cut |
| EvidenceTransfer.NothingElseAssembles | live-sync-protocol/src/execution_evidence_transfer.rs:218-224 | Whatever else is accepted under a page's transfer id is that page, if its text has no second preimage |
| EvidenceTransfer.PartialSetsAreRefused | live-sync-protocol/src/execution_evidence_transfer.rs:183-217 | A missing index, a foreign chunk or a conflicting body refuses the set |
| EvidenceLaws.AdmittedExactly | live-sync-protocol/src/execution_evidence_transfer.rs:37-86 | Exactly the pages that may be sent: each scope, count, sequence, accounting and size condition, number by number |
| EvidenceLaws.RangesAdmitted | live-sync-protocol/src/execution_evidence_transfer.rs:37-86 | From one to a hundred and twenty-eight observations are admitted, and no other number |
| EvidenceLaws.ChunkExactly | live-sync-protocol/src/execution_evidence_transfer.rs:142-170 | Exactly the chunks a receiver looks at |
| EvidenceLaws.AcceptedMatchesChunks | live-sync-protocol/src/execution_evidence_transfer.rs:172-241 | An assembled page is sound and is the one every chunk announced; at most seventy-four chunks were read |
| Wire.VarintRoundTrip | live-sync-protocol/src/protobuf/borrowed.rs:14-16 | Every 64-bit number is read back from its varint, whatever follows |
| Wire.VarintLenExact | live-sync-protocol/src/protobuf/borrowed.rs:56-58 | The length formula counts exactly the bytes of the varint |
| Wire.ZigZagRoundTrip | live-sync-protocol/src/protobuf.rs:54-55 | Signed 64-bit numbers survive ZigZag |
| WireLaws.VarintMeans | live-sync-protocol/src/protobuf/borrowed.rs:14-16 | A varint is its number in seven-bit groups, low ones first, with the high bit on all but the last |
| WireLaws.ReadExactly | live-sync-protocol/src/protobuf.rs:159-177 | Exactly which bytes are read as a number, which number, and how many bytes |
| WireLaws.ZigZagMeans | live-sync-protocol/src/protobuf.rs:54-55 | Signed numbers are written 0, -1, 1, -2, … as 0, 1, 2, 3, … |
| WireLaws.FieldMeans | live-sync-protocol/src/protobuf/borrowed.rs:14-30 | A field is the key 8 tag + kind, then its number, or length and bytes |
| WireLaws.DocumentedBytes | live-sync-protocol/src/protobuf/borrowed.rs:14-30 | The specification's two worked examples come out byte for byte |
| WireLaws.SkipMeans | live-sync-protocol/src/protobuf.rs:159-177 | How many bytes an unknown field takes, by its kind |
| Wire.ParsePrinted | live-sync-protocol/src/protobuf.rs:159-177 | Printed fields are parsed back as the same fields |
| Wire.ParsePrintedField | live-sync-protocol/src/protobuf.rs:159-177 | A printed field is parsed back, and exactly its bytes consumed, whatever follows |
| LiveBatchProofs.TraceFolds | live-sync-protocol/src/protobuf.rs:84-117 | Merging the fields of a trace gives the trace, whichever stamps are absent |
| LiveBatchProofs.EventFolds | live-sync-protocol/src/protobuf.rs:119-143 | Merging the fields of an event gives its message, omitted defaults included |
| LiveBatchProofs.BatchFolds | live-sync-protocol/src/protobuf.rs:178-196 | Merging the fields of a batch gives its head and both event lists, kept apart and in order |
| LiveBatchProofs.TraceReads | live-sync-protocol/src/protobuf/borrowed.rs:48 | The always-present trace record is read back, every absent stamp included |
| LiveBatchProofs.EventReads | live-sync-protocol/src/protobuf/borrowed.rs:12-55 | An encoded event is read back field by field, omitted defaults included |
| LiveBatchProofs.EventRestores | live-sync-protocol/src/protobuf.rs:119-143 | Restoring the message of an event whose kind and payload the codec reads back gives the event |
| LiveBatchProofs.RoundTrip | live-sync-protocol/src/protobuf.rs:144-196 | decode(encode(b)) = b for every well-formed batch within 256 KiB and one hundred events whose kinds and payloads the JSON codec reads back |
| LiveBatchLaws.TraceLayout | live-sync-protocol/src/protobuf.rs:60-83 | Each timestamp of a trace is carried under its own tag, and nothing else is |
| LiveBatchLaws.EventLayout | live-sync-protocol/src/protobuf/borrowed.rs:12-55 | Each part of an event is carried under its own tag; priorities are numbered critical, telemetry, audit, reconciliation |
| LiveBatchLaws.BatchLayout | live-sync-protocol/src/protobuf/borrowed.rs:99-161 | The head under tags 1 to 6, critical events under 7, telemetry under 8, and nothing else |
| LiveBatchLaws.RestoreExactly | live-sync-protocol/src/protobuf.rs:119-143 | Exactly the messages that are events, and what each of their fields and priority numbers becomes |
| LiveBatchLaws.UnknownIsIgnored | live-sync-protocol/src/protobuf.rs:8-83 | Fields of later versions are passed over |
| LiveBatchLaws.WrongKindIsRefused | live-sync-protocol/src/protobuf.rs:8-83 | A known field of the wrong kind, or text that is not UTF-8, refuses the input |
| LiveBatchLaws.DecodeLimits | live-sync-protocol/src/protobuf.rs:153-196 | A decoded batch came in at most 256 KiB and holds at most one hundred events |
| LiveBatchCodec.EncodeRaw | live-sync-protocol/src/protobuf/borrowed.rs:12-55 | The bytes appended for an event are exactly its specified fields |
| LiveBatchCodec.EncodedLen | live-sync-protocol/src/protobuf/borrowed.rs:56-97 | The precomputed event length is the number of bytes written |
| LiveBatchCodec.PutEvents | live-sync-protocol/src/protobuf/borrowed.rs:148-157 | The event loop writes critical events under field 7, the rest under field 8, and as many bytes as counted |
| LiveBatchCodec.EncodeBatch | live-sync-protocol/src/protobuf/borrowed.rs:99-161 | The encoder writes the specified batch, and the length announced first is the length written |
| LiveBatchCodec.CountEvents | live-sync-protocol/src/protobuf.rs:157-176 | The counting loop passes exactly parsable inputs with at most one hundred event fields |
| LiveBatchCodec.DecodeBytes | live-sync-protocol/src/protobuf.rs:153-196 | The decoder method computes the specified decoding on every input |
| RecoverySpec.StepKeeps | src/core/broker/mt5_recovery_task.rs:20-80 | Every step keeps: unfinished tasks are in the slot, one drain owner, a draining slot is closed, a closed slot has aborted its task |
| RecoverySpec.RunKeeps | src/core/broker/mt5_recovery_task.rs:20-80 | Every interleaving keeps it |
| RecoverySpec.AtMostOneUnfinished | src/core/broker/mt5_recovery_task.rs:35-43 | Under every interleaving at most one task is unfinished, and it is the one in the slot |
| RecoverySpec.DrainedSlotIsEmpty | src/core/broker/mt5_recovery_task.rs:53-80 | A shutdown that finishes draining leaves the slot empty and disabled, with every task finished |
| RecoverySpec.CancelKeepsTask | src/core/broker/mt5_recovery_task.rs:59-61 | Abandoning a shutdown detaches nothing |
| RecoverySpec.HoldEnds | src/core/broker/mt5_recovery_task.rs:61-80 | The holder lets go exactly when dropped or when a poll finds its attempt ended |
| RecoverySpec.ClosedHoldIsQuiet | src/core/broker/mt5_recovery_task.rs:57-80 | A slot closed under the drain lock spawns nothing for as long as that lock is held, the holder's own pending polls included |
| RecoverySpec.OpenHoldCanSpawn | src/core/broker/mt5_recovery_task.rs:54-58 | A slot enabled while the shutdown waited can still spawn while the lock is held |
| RecoverySpec.QuietHoldIffClosed | src/core/broker/mt5_recovery_task.rs:53-80 | Over all runs that keep the drain lock held, no task can appear exactly when the slot is disabled |
| RecoverySpec.HeldLockStillSpawns | src/core/broker/mt5_recovery_task.rs:53-58 | A concrete run in which a task is spawned under the held lock |
| RecoveryTask.RecoverySlot.EnableSlot | src/core/broker/mt5_recovery_task.rs:22-33 | Succeeds exactly when no shutdown holds the lock and every task ever spawned has finished |
| RecoveryTask.RecoverySlot.ScheduleTask | src/core/broker/mt5_recovery_task.rs:35-43 | Spawns exactly when enabled with every earlier task finished |
| RecoveryTask.RecoverySlot.CloseSlot | src/core/broker/mt5_recovery_task.rs:45-51 | Disabled, and its attempt told to stop |
| RecoveryTask.RecoverySlot.BeginShutdown | src/core/broker/mt5_recovery_task.rs:53-57 | The slot is closed before the wait for the lock |
| RecoveryTask.RecoverySlot.CloseAgain | src/core/broker/mt5_recovery_task.rs:57-58 | The slot is disabled when draining begins |
| RecoveryTask.RecoverySlot.Poll | src/core/broker/mt5_recovery_task.rs:61-79 | Ready exactly when every task ever spawned has finished, and then the slot is empty and the lock given back |
| RecoveryTask.RecoverySlot.Abandon | src/core/broker/mt5_recovery_task.rs:59-61 | A dropped shutdown gives back the lock and nothing else |
| Statistics.MeanUpdate | src/core/backtest_storage/mod.rs:1521-1525 | The running mean is the mean of the values so far |
| Statistics.CrossUpdate | src/core/backtest_storage/mod.rs:2493-2502 | One product of an old and a new deviation updates the two-pass sum |
| Statistics.CauchySchwarz | src/core/backtest_storage/mod.rs:2508-2513 | The square of a scalar product is at most the product of the squares |
| Statistics.CorrelationBound | src/core/backtest_storage/mod.rs:2508-2513 | Variances are non-negative and covariance squared is at most their product |
| Statistics.RunningMoments | src/core/backtest_storage/mod.rs:1513-1526 | The one-pass loop computes the two-pass mean and squared deviations |
| Statistics.SharpeFromReturns | src/core/backtest_storage/mod.rs:1513-1537 | Uses mean and population variance as defined, with both zero guards |
| Statistics.RunningPairs | src/core/backtest_storage/mod.rs:2486-2502 | The one-pass loop computes all three two-pass sums |
| Statistics.PearsonPairs | src/core/backtest_storage/mod.rs:2482-2514 | The reported correlation is covariance over the root of the variances' product, and lies in [-1, 1] |
| Statistics.MeanStdAgrees | src/core/broker/backtest_state.rs:745-753 | The report side's two-pass form gives the same mean and variance |
| Statistics.TwoValues | src/core/backtest_storage/mod.rs:1513-1537 | The definitions on two values: their middle, half the product of their gaps, and the square of half the gap |
| Divergence.SearchDivergence | src/core/alpha/rsi_divergance_alpha.rs:118-163 | The reverse loop decides by the nearest reachable earlier pivot |
| Divergence.FoundExactly | src/core/alpha/rsi_divergance_alpha.rs:100-163 | In plain comparisons, gaps in the data included: the newest confirmable row against the nearest earlier extreme, lower low with higher momentum or higher high with lower, by at least the minimum |
| Divergence.PivotsApart | src/core/alpha/rsi_divergance_alpha.rs:136-138 | Strict pivots of one kind are more than the width apart |
| Divergence.PivotIsStrict | src/core/alpha/rsi_divergance_alpha.rs:100-116 | On positive prices the guarded pivot test is strict extremality in its window |
| Divergence.Pivots | src/core/alpha/builtin_tests.rs:594-625 | The reference lists all strict pivots of its range, in order, and nothing else |
| Divergence.BoundedIsFullScan | src/core/alpha/builtin_tests.rs:594-625 | On positive prices, RSI in 0..100 and no minimum change the bounded search equals the full-history scan |
| Divergence.OldRowsAreIgnored | src/core/alpha/rsi_divergance_alpha.rs:127-163 | Only the last distance + 2 width + 1 rows matter |
| FillHistory.Validate | src/core/broker/fill_history.rs:57-195 | The validator's loops accept exactly the declared histories |
| FillHistory.ScanFills | src/core/broker/fill_history.rs:97-130 | The fill loop tracks ids, side, first entry, currency and both totals |
| FillHistory.ScanInvalidations | src/core/broker/fill_history.rs:131-165 | The invalidation loop goes on with the same facts |
| FillHistory.ExitsChecked | src/core/broker/fill_history.rs:166-180 | Checking exits against the tracked side and first entry is the declared rule on all facts |
| FillHistoryLaws.AcceptedFacts | src/core/broker/fill_history.rs:57-195 | An accepted history has at most 256 facts of one position, symbol and provider, distinct fill ids, an entry, one entry side, and no exit before the first entry |
| FillHistoryLaws.AcceptedFills | src/core/broker/fill_history.rs:97-195 | Accepted fills are positive, in one currency, and exits exceed entries by at most the tolerance unless an entry was invalidated; a snapshot has a side exactly when it holds something |
| FillHistoryLaws.ProperIsAccepted | src/core/broker/fill_history.rs:57-195 | Any list of proper facts with distinct ids that does not exit more than it entered is accepted |
| PositionLedger.BucketsPartition | src/core/broker/fill_history.rs:204-219 | Summing per bucket counts every fill once |
| PositionLedger.AcceptedSides | src/core/broker/fill_history.rs:208-216 | An accepted history has one entry side and only entries and exits |
| PositionLedger.Gather | src/core/broker/fill_history.rs:204-219 | The buckets hold the entry and exit totals of each time |
| PositionLedger.Reduce | src/core/broker/fill_history.rs:220-230 | The buckets are settled in time order |
| PositionLedger.CheckPosition | src/core/broker/fill_history.rs:200-243 | The comparison is the specified one on every history, whose matching is then told without it |
| PositionLedger.FoldKeeps | src/core/broker/fill_history.rs:220-230 | Settling buckets keeps the remainder non-negative while valid, and within the tolerances of the net quantity |
| PositionLaws.PermutedLedger | src/core/broker/fill_history.rs:204-230 | The ledger depends only on the bag of fills |
| PositionLaws.ReorderedAccepts | src/core/broker/fill_history.rs:57-195 | A reordered history is accepted as well |
| PositionLaws.QuantityHasSide | src/core/broker/fill_history.rs:231-232 | A positive remainder has a side |
| PositionLedger.LedgerQuantityBounds | src/core/broker/fill_history.rs:220-231 | A reported quantity is non-negative and within the accumulated tolerances of entered minus exited |
| PositionMeaning.BucketMeans | src/core/broker/fill_history.rs:220-230 | What one time leaves: entries first, exits against what is then held, dust of one part in a billion dropped, an overdraft beyond that spoils the ledger |
| PositionMeaning.NeverShort | src/core/broker/fill_history.rs:220-230 | A reported quantity never went short: up to every time, exits are covered by entries within the tolerances |
| PositionMeaning.EntriesAreReported | src/core/broker/fill_history.rs:220-232 | A history of entries alone reports exactly their sum and side |
| PositionMeaning.SideIsEntrySide | src/core/broker/fill_history.rs:231-232 | A reported side is the side of every entry |
| PositionMeaning.MatchedExactly | src/core/broker/fill_history.rs:233-243 | Matched exactly when a quantity is reported, the sides are equal, and the amounts differ by at most a billionth of the larger |
| PositionMeaning.MatchedMeans | src/core/broker/fill_history.rs:200-243 | A matched snapshot holds entered minus exited within the stated tolerances, on the entry side |
| PositionMeaning.EqualIsMatched | src/core/broker/fill_history.rs:233-243 | Equal quantity and side always match |
| PositionLaws.CheckIgnoresOrder | src/core/broker/fill_history.rs:200-243 | The comparison is the same however fills and invalidations are ordered |
| PositionLaws.ConsumerAccepts | live-sync-protocol/src/position_quantity.rs:46-98 | A record that carries the comparison under a sound scope passes the consumer's checks, whose own equality test is stated separately |
| CashFlow.ValidatePage | live-sync-protocol/src/account_cash_flow.rs:69-113 | The record loop accepts exactly valid pages |
| CashFlow.AccountCashFlows.constructor | src/core/broker/account_cash_flow.rs:46-60 | Starts at the page's boundary with nothing retained |
| CashFlow.AccountCashFlows.Apply | src/core/broker/account_cash_flow.rs:64-112 | The in-place update is the specified one, accepted exactly for the next page or an exact retry |
| CashFlow.FromPage | src/core/broker/account_cash_flow.rs:37-63 | Opens exactly for a valid page at its source's boundary |
| CashFlowLaws.PageExactly | live-sync-protocol/src/account_cash_flow.rs:65-113 | Exactly the pages that may be read: scope, bounds and size, and for each record its place, times and sign, deposits never negative and withdrawals never positive |
| CashFlowLaws.AdvancesExactly | src/core/broker/account_cash_flow.rs:64-100 | Exactly which pages move the reader on, which repeat the last one, and which find no room among 256 events |
| CashFlowLaws.AdvanceLeaves | src/core/broker/account_cash_flow.rs:100-112 | What an accepted page leaves in every field, and for every event |
| CashFlowLaws.OpensWith | src/core/broker/account_cash_flow.rs:37-63 | A reader opens with the scope and bounds of a first page and holds nothing |
| CashFlowSpec.LatestMeans | src/core/broker/account_cash_flow.rs:101-103 | The retained map holds every event, each at its latest revision |
| CashFlowSpec.AppliedKeeps | src/core/broker/account_cash_flow.rs:64-112 | One page, accepted or not, keeps the retained map equal to the fold of the accepted log |
| CashFlowSpec.LogIsSlice | src/core/broker/account_cash_flow.rs:74-82 | If the pages a run accepts as new are stretches of one source log, what it has accepted is one gapless slice, whatever the refused pages hold |
| CashFlowSpec.AcceptedMayRetry | src/core/broker/account_cash_flow.rs:67-73 | A page that was just accepted is recognised as a retry |
| CashFlowSpec.RetainedIsFold | src/core/broker/account_cash_flow.rs:64-112 | After any run of accepted, refused and repeated pages the map is the latest-revision fold of the source log from the first boundary to the cursor, with at most 256 events |
| CashFlowSpec.RunForward | src/core/broker/account_cash_flow.rs:74-109 | Cursor and watermarks never regress and the scope never changes |
| CashFlowSpec.RejectionChangesNothing | src/core/broker/account_cash_flow.rs:74-100 | A rejection changes nothing but the capacity flag |
| CashFlowSpec.RetryIsNoOp | src/core/broker/account_cash_flow.rs:67-73 | An exact retry of the last page is accepted and changes nothing, rejections in between included |
| AlphaScope.Merge | src/node/codegen.rs:138-146 | The merged list is the union, and its length tells whether anything was added |
| AlphaScope.PushAll | src/node/codegen.rs:138-165 | All alphas of a pipe reach all given targets, soundly, and the flag tells whether anything was new |
| AlphaScope.PushFrom | src/node/codegen.rs:133-165 | All alphas of a pipe reach both kinds of neighbours |
| AlphaScope.ChangeShrinks | src/node/codegen.rs:123-125 | Each changed round leaves fewer pairs missing, so the loop ends |
| AlphaScope.Round | src/node/codegen.rs:123-165 | A round without change leaves the table closed under every edge, whatever the iteration order |
| AlphaScope.FixpointIsScope | src/node/codegen.rs:118-166 | A sound table closed under every edge holds exactly the scopes |
| AlphaScope.Propagate | src/node/codegen.rs:118-166 | The loop ends on every graph and gives each pipe exactly the alphas wired to pipes that reach it |
| AlphaScope.ScopeIsInherited | src/node/codegen.rs:118-166 | Wired alphas are in scope, and what is in scope of a pipe is in scope of its children and of the pipes downstream |
| AlphaScope.ScopeIsLeast | src/node/codegen.rs:118-166 | Nothing else is: every table with those properties holds the whole scope |
| TradePairing.PriceTrip | src/core/broker/backtest_state.rs:547-580 | One trip carries the match's signed gross result, proportional commission, swap and return |
| TradePairing.PriceRow | src/core/backtest_storage/mod.rs:529-596 | One stored row carries the same amounts, with its own guard on the return |
| TradePairing.TripMeans | src/core/broker/backtest_state.rs:547-580 | Before charges a long trip gains what the price rose, a short one what it fell, times the quantity; the return is the result over the capital, the entry commission in proportion |
| TradePairing.RowMeans | src/core/backtest_storage/mod.rs:529-596 | The stored row says the same, and is CLOSED or PARTIAL |
| TradePairing.RowSaysOver | src/core/backtest_storage/mod.rs:517-618 | A row is EXIT for an order not open, PARTIAL while it stays open, CLOSED when this exit ends it |
| TradePairing.GainsIffPriceMoved | src/core/broker/backtest_state.rs:547-560 | Before charges a trip gains exactly when the price moved its way |
| TradePairing.OrderAccount | src/core/broker/backtest_state.rs:529-591 | All trips of a fully matched order together: proceeds less cost (mirrored for a short), plus swaps, less exit commissions, less the entry commission once |
| TradePairing.OrderCost | src/core/broker/backtest_state.rs:529-591 | The cost of what was matched is the entry price times its quantity |
| TradePairing.MatchesAreThose | src/core/backtest_storage/mod.rs:517-618 | The matches, told from the quantities in the log alone: each exit of an open order against its last entry, for what both have left |
| TradePairing.RoundTripTrades | src/core/broker/backtest_state.rs:529-591 | The trips are the matches of the pairing pass, in order |
| TradePairing.BuildTradeLogRows | src/core/backtest_storage/mod.rs:504-665 | Before sorting, the rows are one for each exit in order, matched or not, and one for each order with more than an epsilon open; the PARTIAL and CLOSED ones tell the matches |
| TradePairing.LogRowsTell | src/core/backtest_storage/mod.rs:517-618 | The paired rows of the log tell the matches of the stored pass, one for one |
| TradePairing.PassesAgree | src/core/backtest_storage/mod.rs:504-618 | On positive quantities both passes agree on quantity, P&L, commission, swap and prices |
| TradePairing.PassesAgreeIff | src/core/broker/backtest_state.rs:542-545 | On any log the two passes tell the same matches exactly when no exit of an open order has a quantity of zero or less and none follows such an entry, a test of the log's quantities alone |
| TradePairing.BookIsOpen | src/core/backtest_storage/mod.rs:517-600 | As long as no exit was empty, which orders are open and what they have left is told by entry and exit quantities |
| TradePairing.EmptyExitSplitsPasses | src/core/broker/backtest_state.rs:542-545 | A zero exit of an open order gets a stored row and no round trip |
| TradePairing.QuantityAndCommissionConserved | src/core/broker/backtest_state.rs:529-591 | Matched plus remaining quantity is the entry quantity while the order is open, and within one epsilon after; the entry commission is charged in proportion to matched quantity |
| TradePairing.ConservedIffNoDust | src/core/broker/backtest_state.rs:529-591 | Over any positive log with distinct entries, matched plus remaining is the entry quantity exactly when no exit brought the order to within one epsilon of closed without closing it |
| TradePairing.DustIsDropped | src/core/broker/backtest_state.rs:583-586 | Half an epsilon left open is dropped with its order |
| TradePairing.DustBoundary | src/core/broker/backtest_state.rs:583-586 | An order of one unit outlives an exit exactly when more than 2^-52 of it is left |
| TradePairing.CommissionChargedOnce | src/core/broker/backtest_state.rs:556-560 | A fully matched order was charged its entry commission exactly once |

## Left out

- SQL text, file locks, fsync and the tokio runtime: a journal operation is one atomic step, channels are bounded sequences, and the process lock is "at most one live worker".
- CommandJournal.BrokerCommandJournal.FinishCancelRetry: its two SQL statements are one method; a crash between them is the step `CrashInRetry` of the system.
- Checkpoint rows, admission order, cloud history and analytics capture in the journal: only command rows, retry attempts and the stop phase are modelled.
- Account lane, host account lock and snapshot cache: their answers are parameters of the park, dispatch and first-poll steps; the capacity they reserve is not tracked.
- Delivery of the journal error that ends a worker: the worker ends without a record of that last event.
- Journal epochs and attempt numbers near the integer limit: they are unbounded, so the overflow error does not occur.
- Scheduler: `bar_indices`, `previous_time`, `get_current_bar` and the progress snapshot.
- EvidenceTransfer: error texts of assembly are merged where two checks share one outcome.
- LiveBatchCodec.DecodeBytes: error texts; every refusal is `None`. The JSON byte budget of `decode_http` and the choice `prefer` are not modelled.
- LiveBatchCodec.EncodedLen: assumes that every string and vector is shorter than 2^64 bytes, as any value in memory is.
- RecoveryTask: `Drop`, and the log line for a panicked attempt.
- Statistics: rounding, NaN and the value of square roots; the square root is any function with its defining property.
- TradePairing: `return_pct` is computed but not compared, since the two passes guard it differently; a zero basis gives zero where floating point gives NaN. Row metadata, sorting and renumbering are not modelled.
- CashFlow: `cash_flow_adjusted_change_pct`, one guarded formula.
- AlphaScope: how connections become the three edge lists, and the emitted source text.
- Data feeds fetch and stream bars from vendors, the HTTP layer authenticates and forwards requests, configuration is read and checked, and indicators wrap library calls: none of these holds protocol state, so none is modelled.
