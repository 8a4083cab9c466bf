# Verified model of the desktop main process

This Dafny 4.11 project models the stateful and algorithmic components of `apps/desktop/src/main`
and proves what they are for. `dafny verify dfyconfig.toml` checks all of it.

Code that changes state is modelled twice: as functions on values (the steps of a state machine), on
which the properties over whole runs are proved, and as a class whose methods update fields in loops
and assignments like the source's, each proved equal to its step. Asynchronous code is cut at its
awaits: what happens between two awaits is one step, and steps of different activities interleave
freely. The answers of the network, the cloud, the clock and the source database are step
parameters, so every statement about runs holds for all of them.

What decides a result (which lock a command takes, which status asks for which event, which line sets a
phase, which key comes first) is stated a second time in terms of the inputs, without the function that
computes it, and carried over to runs: `ExecutorLocks`, `ExecutorOutcomes`, `ExecutorMessages`,
`SessionSyncChoice`, `SignatureChecks`, `CanonicalText`, `FinalizationStatus`, `CommandKeyFates`, and laws
in the other modules.

- **Cloud command executor** (`CommandTypes`, `ExecutorModel`, `ExecutorSafety`, `ExecutorRuns`,
  `ExecutorLocks`, `ExecutorOutcomes`, `ExecutorMessages`, `ExecutorHistory`, `ExecutorStreams`,
  `ExecutorReplay`, `CloudCommandExecutor`): a bounded scheduler with locks, and a numbered event log
  per command with acknowledgements, replay and pruning. A TrackedCommand object is named by the position of its acceptance, so that a late execution of a
  forgotten command and its successor with the same id are told apart, as the two objects are.
- **perf.jsonl reader** (`Lines`, `PerfTelemetry`, `Utf8`, `Utf8Decoding`, `PerfBytes`): incremental
  framing over watcher ticks and a reconcile pass, against a single parse; decoding bytes read by
  read; cutting diagnostics at a byte limit.
- **Agent session sync** (`EventChunker`, `SessionSync`, `SessionSyncChoice`, `SessionSyncRuns`,
  `SessionSyncLoss`, `SessionSyncCounterexamples`, `SessionSyncService`): cursor, two queues, retry counters,
  acknowledgements and the greedy chunker, against a source whose sessions keep changing.
- **Command signatures** (`SignatureVerifier`, `SignatureChecks`, `SignatureReplay`, `CanonicalJson`,
  `CanonicalStringify`, `CanonicalText`, `Fingerprint`): the pruned nonce cache against an unbounded history, for every
  clock, and the canonical JSON printer against the meaning of values.
- **Money** (`Decimal`, `CostMath`): exact parsing, rounding and error bounds. Integers are faithful
  here, because every value that would lose precision as a float fails the safe-integer guard.
- **Job store and finalization** (`JobStore`, `Finalization`, `FinalizationRuns`, `FinalizationStatus`,
  `FinalizationHarm`, `LoopFinalizer`): the store against the history of its upserts; the persisted-flag protocol of loop
  finalization and boot recovery with crashes between any two steps and any number of concurrent runs
  of one loop.
- **Command keys** (`CommandKeys`, `CommandKeyFates`, `CommandKeyReconciler`): classify, decide, rewrite.
- **Hook installer** (`HookInstaller`, `AgentMonitorHooks`): recognition of entries, the laws of install
  and uninstall, and the two installers that they hold for.

## What does not hold as expected

Each of these is proved: by a complete run or a concrete input, by a lemma with the exact condition,
or by both, as named.

- Enqueueing an id that was pruned from tracking while its execution is still in flight breaks the
  concurrency limit (`LateReenqueueOverruns`); the invariant survives a step exactly when that does not
  happen (`ExecutorRuns.StepKeepsInvExactly`).
- Acknowledgements name a command by its id alone. A late one for a forgotten command can drop unseen
  events of a later command with the same id, under exactly the condition of `LateAckCompletesIff`.
- `chunkOversizedSession` does not count the separators between events, so a chunk can exceed the cap
  (`CapExceeded`, `FitsCapIff`). When the metadata alone fills the budget, all events are dropped.
- The session sync loses an update at two kinds of step, and only there, when their guards hold
  (`StepLosesNothingIff`, over whole runs `RunLosesNothingIff`). An acknowledgement can take a session
  out of its queue with nothing else standing for its current version: so when a batch of several
  sessions is accepted although chunks of one of them are outstanding (`SplitInBatchLosesIff`), after
  which the failure of a chunk drops it for good (`SharedBatchLosesSession`). And rows can arrive for a
  cycle that asked for them before a reset: they set the watermark past every session that is not
  queued or finished (`StaleListingLosesIff`, `ListingAfterReset`, `ResetDuringListingLosesBacklog`).
  Runs without such resets and splits lose nothing (`CleanRunLosesNothing`); that is enough, not
  necessary.
- A tick of the perf.jsonl reader decodes what it read by itself. A read that ends inside a character
  turns both halves into replacement characters (`CutInsideCharacter`); the reads decode to the text
  exactly when none begins inside a character (`PiecesDecodeIff`).
- With a clock that goes back, a forgotten payload can be accepted again (`ClockBackAcceptsTwice`):
  exactly when some call in between pruned with a clock more than 45 seconds past its timestamp
  (`ReplayAcceptedIff`, `NextReplayIff`, over the history `RepeatsIff`).
- The store dropping a record during its finalization is harmless by itself. A run that then writes its
  own copy can undo flags and attempts and leave a reported success unbacked (`EvictionLosesFlag`);
  the dead-job path of boot recovery writes back a copy of the record read before an await, with the
  same effect (`StaleWriteRepeatsPost`). These are exactly the steps after which the record lacks
  something (`FinalizationRuns.StepKeepsInvExactly`); a record that then owes an event without its flag
  has it sent again (`LostFlagRepeatsPost`, `RepairSendsIff`). The same stale copy makes the cloud's answer that
  the loop is gone leave no trace but the deleted token (`GoneIsReplayedAsAnyOther`), although the
  comment at `boot-recovery.ts:219-223` says that such a loop is finalized as UNKNOWN. The model follows
  the code.
- The reconciliation mode named `promote_only` also removes stale keys whenever it occurs
  (`PassIsOneRule`); an active target whose id is empty counts only while the fetch is empty.
- Uninstalling after installing differs from uninstalling alone when a null stands where a list is
  expected (`UninstallUndoesInstallIff`).

## Model

| member | source | states |
|---|---|---|
| ExecutorRuns.StepKeepsInvExactly | apps/desktop/src/main/cloud-command-executor.ts:61-170 | A step of the executor keeps the whole invariant (queue, tracked states, in-flight map and lock table agree, histories and buffers match, lanes are in order) if and only if it does not accept a command whose id is still in flight |
| ExecutorSafety.StepKeepsInv | apps/desktop/src/main/cloud-command-executor.ts:226-359 | Every clean step keeps the invariant: enqueue, schedule, start, stream line, finish, cancel, timeout, acknowledge, replay and prune |
| ExecutorRuns.RunKeepsInv | apps/desktop/src/main/cloud-command-executor.ts:61-359 | The invariant holds in every state of every run of clean steps |
| ExecutorRuns.LocksAndLimit | apps/desktop/src/main/cloud-command-executor.ts:226-283 | In every reachable state at most max(1, maxInFlight) executions are in flight, no two share a lock key, and lockOwners is exactly the lock table of the in-flight ones; what the key is, `ExecutorLocks` says |
| ExecutorRuns.WorkConserving | apps/desktop/src/main/cloud-command-executor.ts:226-249 | Between steps a connected executor has reached its limit, or every queued command waits for a lock held by an in-flight one; with nothing in flight nothing is queued |
| ExecutorRuns.IdleStartsHead | apps/desktop/src/main/cloud-command-executor.ts:230-247 | A non-empty queue with nothing in flight always starts its head |
| ExecutorRuns.FirstComeFirstServed | apps/desktop/src/main/cloud-command-executor.ts:226-270 | Over whole runs, of two commands in one lock lane (or both without a lock) the earlier one starts first unless it was cancelled in the queue; no command starts twice |
| ExecutorRuns.Drains | apps/desktop/src/main/cloud-command-executor.ts:349-359 | Once arrivals stop, a connected executor makes exactly as many finishing steps as commands were queued or in flight, and is then empty; until then some execution can finish |
| ExecutorRuns.LateReenqueueOverruns | apps/desktop/src/main/cloud-command-executor.ts:61-80 | A complete run from the start in which an id pruned from tracking is enqueued again while its old execution is in flight: three executions with a limit of two |
| ExecutorLocks.LocksIff | apps/desktop/src/main/cloud-command-executor.ts:643-687 | The lock of a command is its own trimmed, non-blank lockKey, or else its operation and the trimmed, non-blank text of the first of repoPath, worktreePath, workDir, runDir and path that holds a string; without either it has none |
| ExecutorLocks.OneOperationPerPath | apps/desktop/src/main/cloud-command-executor.ts:226-293 | In every reachable state no two commands in flight name the same lock, and no two that name none have the same operation and work on the same path: said of the commands and their bodies |
| ExecutorLocks.LocksExclude | apps/desktop/src/main/cloud-command-executor.ts:226-293 | In every reachable state no two commands with one lock are in flight, whether they name it or it comes from their bodies |
| ExecutorLocks.WaitsForItsLock | apps/desktop/src/main/cloud-command-executor.ts:226-249 | A queued command of a connected executor below its limit waits for a command in flight with the same lock; one without a lock waits only for a free slot |
| ExecutorLocks.EarlierStartsFirst | apps/desktop/src/main/cloud-command-executor.ts:226-270 | Of two commands with one lock, or both without, the earlier starts first unless it was cancelled in the queue |
| ExecutorLocks.TakesItsLock | apps/desktop/src/main/cloud-command-executor.ts:251-293 | A command that starts takes its lock and no other |
| ExecutorOutcomes.AcceptedIff | apps/desktop/src/main/cloud-command-executor.ts:61-144 | A command that is not tracked is accepted exactly when its signature passes, its id is not blank, its method is one of five in any case and its path is a gateway path; otherwise it leaves only the answer with the reason |
| ExecutorOutcomes.KnownIsNotRerun | apps/desktop/src/main/cloud-command-executor.ts:61-80 | Enqueueing an id that is queued, running or finished within ten minutes, among at most 200, runs nothing: it is acknowledged again, and a finished one is sent its buffer |
| ExecutorOutcomes.PruneForgets | apps/desktop/src/main/cloud-command-executor.ts:565-592 | Pruning forgets every command finished for more than ten minutes, no live one, and of the other finished ones none unless they are more than 200 |
| ExecutorOutcomes.AckDropsExactly | apps/desktop/src/main/cloud-command-executor.ts:172-188 | An acknowledgement drops exactly the covered events of a command that is not finished, and never lowers the acknowledged sequence |
| ExecutorOutcomes.FlightKnows | apps/desktop/src/main/cloud-command-executor.ts:146-170 | Over every run: an execution in flight holds the reason of the last cancellation asked for since it started, and has timed out exactly when its timer fired |
| ExecutorOutcomes.ThrownEnds | apps/desktop/src/main/cloud-command-executor.ts:282-360 | Over every run: when the call of a live command throws, its history ends with the last cancellation asked for, else the time-out if its timer fired, else the failure; nothing is added to one that ended |
| ExecutorOutcomes.ReturnedEnds | apps/desktop/src/main/cloud-command-executor.ts:282-360 | When the call returns, a command that has not ended gets a plain done |
| ExecutorOutcomes.ReplyEnds | apps/desktop/src/main/cloud-command-executor.ts:421-429 | An answer that is no stream adds its result, with status code, success and data, and a done |
| ExecutorMessages.EventsAreSent | apps/desktop/src/main/cloud-command-executor.ts:491-518 | In every reachable state each event of a history has been sent under its command's id and its number, and every event sent is one of these |
| ExecutorMessages.StartedAreAnnounced | apps/desktop/src/main/cloud-command-executor.ts:251-293 | In every reachable state the history of a started command begins with its running status, which names its operation |
| ExecutorMessages.QueuedCancelEnds | apps/desktop/src/main/cloud-command-executor.ts:146-160 | A command cancelled in the queue leaves it at once and is over; its only event is the cancellation with its reason |
| CommandTypes.LineEventIs | apps/desktop/src/main/cloud-command-executor.ts:745-775 | Lines typed status, error, result and done become these events, every other line a chunk; the event carries the value of the line, or its text if it is no JSON value |
| CommandTypes.LineEndsIff | apps/desktop/src/main/cloud-command-executor.ts:776-803 | A line ends its command exactly when it is a done, or an error or result flagged terminal; the command is then cancelled, failed or finished as the line says |
| CloudCommandExecutor.LineEventsAre | apps/desktop/src/main/cloud-command-executor.ts:445-469 | A stream yields one event for each of its lines that is not blank, made of the trimmed line, in order |
| ExecutorHistory.StepLeaves | apps/desktop/src/main/cloud-command-executor.ts:282-348 | Once a command left the queue only its own execution adds to its history, and nothing does after its terminal event |
| ExecutorHistory.OneTerminalEvent | apps/desktop/src/main/cloud-command-executor.ts:491-528 | In every reachable state a history has at most one terminal event, in last place, and a tracked command is terminal exactly when its history has one, with the outcome that event names |
| ExecutorHistory.TerminalIsFinal | apps/desktop/src/main/cloud-command-executor.ts:520-528 | A history never changes after its terminal event |
| ExecutorHistory.StreamHistory | apps/desktop/src/main/cloud-command-executor.ts:432-489 | Under every interleaving with other commands, a streaming command has as history its start-up history plus the mapped lines up to the first terminal one |
| ExecutorStreams.CompletedReads | apps/desktop/src/main/cloud-command-executor.ts:282-348 | A command that reads its stream piece by piece, with any steps of other commands between two reads or two lines, ends with and for ever keeps the history: running status, the events of the lines of the concatenated text up to the first terminal one, and a done if there was none |
| ExecutorStreams.ReadsAreSplit | apps/desktop/src/main/cloud-command-executor.ts:445-469 | However a text is cut into reads and the reads are interleaved with other steps, the lines processed are those of the whole text |
| ExecutorReplay.ReplayReconstructsHistory | apps/desktop/src/main/cloud-command-executor.ts:172-198 | Over every interleaving of emissions, losses, repeated deliveries, acknowledgements and resumes the receiver holds a prefix of each history, and all of it right after a resume |
| ExecutorReplay.ResumeCompletes | apps/desktop/src/main/cloud-command-executor.ts:530-546 | Replaying from what the receiver holds sends exactly the missing events, numbered and in order |
| ExecutorReplay.ReenqueueCompletes | apps/desktop/src/main/cloud-command-executor.ts:61-80 | Re-enqueueing a finished command sends its whole buffer, which completes the receiver too |
| ExecutorReplay.BufferIsSuffix | apps/desktop/src/main/cloud-command-executor.ts:172-188 | Events are numbered 1 to n without gaps and the buffer is the tail of the history that starts no later than just after the acknowledged part |
| ExecutorReplay.NetStepKeepsInv | apps/desktop/src/main/cloud-command-executor.ts:172-198 | Every step of executor, network and receiver keeps: the receiver holds prefixes and nothing beyond them is acknowledged |
| ExecutorReplay.LateAckCompletesIff | apps/desktop/src/main/cloud-command-executor.ts:172-198 | An acknowledgement keyed by the id alone, sent for a forgotten command and reaching a later one with that id: a resume after it completes the receiver if and only if the command is finished, the sequence is not beyond what the receiver holds, or nothing is missing; otherwise it drops unseen events |
| ExecutorReplay.LateAckKeepsInvIff | apps/desktop/src/main/cloud-command-executor.ts:172-188 | It keeps what replay relies on if and only if its sequence is not beyond what the receiver holds |
| CloudCommandExecutor.CloudCommandExecutor.constructor | apps/desktop/src/main/cloud-command-executor.ts:50-53 | A new executor is the initial state of the model |
| CloudCommandExecutor.CloudCommandExecutor.EmitTrackedEvent | apps/desktop/src/main/cloud-command-executor.ts:491-518 | Numbers, buffers, records and sends the event, or does nothing for an untracked or terminal command |
| CloudCommandExecutor.CloudCommandExecutor.MarkTerminal | apps/desktop/src/main/cloud-command-executor.ts:520-528 | Sets the terminal state once |
| CloudCommandExecutor.CloudCommandExecutor.Conclude | apps/desktop/src/main/cloud-command-executor.ts:282-348 | Emits a terminal event and marks the command with the outcome it names |
| CloudCommandExecutor.CloudCommandExecutor.ReplayBuffered | apps/desktop/src/main/cloud-command-executor.ts:530-546 | The loop re-sends exactly the buffered events after the given sequence, in order |
| CloudCommandExecutor.CloudCommandExecutor.ReplayFrom | apps/desktop/src/main/cloud-command-executor.ts:189-198 | Replays every entry of a resume message, skipping unusable positions |
| CloudCommandExecutor.CloudCommandExecutor.Acknowledge | apps/desktop/src/main/cloud-command-executor.ts:172-188 | Raises the acknowledged sequence and drops the acknowledged events of a live command |
| CloudCommandExecutor.CloudCommandExecutor.BeginExecute | apps/desktop/src/main/cloud-command-executor.ts:251-293 | The synchronous start of an execution: lock, in-flight entry, running status; the lock it takes is the one the command names, or else its operation on the path its body works on |
| CloudCommandExecutor.CloudCommandExecutor.Schedule | apps/desktop/src/main/cloud-command-executor.ts:226-249 | The loop starts the first command whose lock is free until the limit is reached or none is left; `OneOperationPerPath` and `WaitsForItsLock` say what that comes to |
| CloudCommandExecutor.CloudCommandExecutor.SetConnected | apps/desktop/src/main/cloud-command-executor.ts:54-59 | Connecting schedules; disconnecting only records the flag |
| CloudCommandExecutor.CloudCommandExecutor.Cancel | apps/desktop/src/main/cloud-command-executor.ts:146-170 | A queued command is removed and concluded; a running one is flagged with its reason; a terminal one is left alone |
| CloudCommandExecutor.CloudCommandExecutor.FireTimeout | apps/desktop/src/main/cloud-command-executor.ts:273-278 | After the timer fired, the execution, should it throw, ends with the timeout error, or with its cancellation if it was cancelled |
| CloudCommandExecutor.CloudCommandExecutor.ProcessStreamLine | apps/desktop/src/main/cloud-command-executor.ts:478-489 | Emits the mapped event of a line and says whether it was terminal |
| CloudCommandExecutor.CloudCommandExecutor.ConsumeStreamResponse | apps/desktop/src/main/cloud-command-executor.ts:432-476 | However the stream is cut into reads, the state afterwards is that of its non-blank lines processed one by one, and a done if none was terminal |
| CloudCommandExecutor.CloudCommandExecutor.ProcessLines | apps/desktop/src/main/cloud-command-executor.ts:455-463 | The inner loop over the lines completed by one read |
| CloudCommandExecutor.CloudCommandExecutor.FinishPlainReply | apps/desktop/src/main/cloud-command-executor.ts:421-429 | A non-streamed reply emits its result and a done |
| CloudCommandExecutor.CloudCommandExecutor.EndExecute | apps/desktop/src/main/cloud-command-executor.ts:282-360 | Completion, failure, cancellation and time-out all emit the right closing event at most once, release the lock and schedule |
| CloudCommandExecutor.CloudCommandExecutor.ReleaseRun | apps/desktop/src/main/cloud-command-executor.ts:349-357 | The finally block removes the in-flight entry and the lock |
| CloudCommandExecutor.CloudCommandExecutor.PruneTerminalCommands | apps/desktop/src/main/cloud-command-executor.ts:565-592 | Removes exactly the expired terminal commands and then the oldest beyond the cap of 200 |
| CloudCommandExecutor.CloudCommandExecutor.PruneExpired | apps/desktop/src/main/cloud-command-executor.ts:571-578 | The first loop removes the terminal commands older than ten minutes |
| CloudCommandExecutor.CloudCommandExecutor.PruneSurplus | apps/desktop/src/main/cloud-command-executor.ts:580-591 | The second loop removes the oldest terminal commands beyond the cap |
| CloudCommandExecutor.CloudCommandExecutor.SortByCompletion | apps/desktop/src/main/cloud-command-executor.ts:580-586 | The terminal commands in order of completion |
| CloudCommandExecutor.CloudCommandExecutor.Enqueue | apps/desktop/src/main/cloud-command-executor.ts:61-144 | Prunes, re-acknowledges and replays a known id, rejects an invalid or unsigned command, or queues and schedules a new one |
| CloudCommandExecutor.CloudCommandExecutor.Accept | apps/desktop/src/main/cloud-command-executor.ts:121-143 | Tracks, queues and acknowledges a new command |
| Lines.SplitIsFaithful | apps/desktop/src/main/cloud-command-executor.ts:432-468 | Splitting at newlines loses nothing: joining the lines and the rest gives the text back |
| Lines.FrameAppend | apps/desktop/src/main/loop-perf-telemetry.ts:602-619 | Framing a text piece by piece, carrying the incomplete line, gives the lines of the whole text |
| PerfTelemetry.PhaseKeyInjective | apps/desktop/src/main/loop-perf-telemetry.ts:357-359 | Different (run, iteration) pairs have different phase keys, whatever characters the run id holds |
| PerfTelemetry.SeedLineNumberBase | apps/desktop/src/main/loop-perf-telemetry.ts:106-136 | The loop counts the newlines before the offset |
| PerfTelemetry.PerfReader.constructor | apps/desktop/src/main/loop-perf-telemetry.ts:794-817 | A watcher starts at its offset with the line number of that offset |
| PerfTelemetry.PerfReader.ProcessLine | apps/desktop/src/main/loop-perf-telemetry.ts:623-714 | One line: nothing for a blank one, a failure for a malformed or invalid one, one skipped for an unsupported one, and otherwise one event; an agent, tool, skill or spawn record carries the phase of the last earlier line that sets the phase of its run and iteration, every other kind none |
| PerfTelemetry.PerfReader.CountLine | apps/desktop/src/main/loop-perf-telemetry.ts:619-650 | At most twenty failing lines of a chunk are reported, the others counted |
| PerfTelemetry.PerfReader.ProcessLines | apps/desktop/src/main/loop-perf-telemetry.ts:623-714 | The loop emits the records of its lines as the reference parse does and reports the first twenty failures |
| PerfTelemetry.PerfReader.ReportSuppressed | apps/desktop/src/main/loop-perf-telemetry.ts:716-724 | One event says how many failures were suppressed |
| PerfTelemetry.PerfReader.ParseAndEmitChunk | apps/desktop/src/main/loop-perf-telemetry.ts:602-730 | A chunk yields exactly the records, failures, leftover and line number that one parse of the lines consumed so far would add |
| PerfTelemetry.PerfReader.Tick | apps/desktop/src/main/loop-perf-telemetry.ts:826-843 | After a tick the reader has consumed exactly the file up to its end, and has reported, numbered from its line number base, the first twenty failing lines among those the new text completes and how many more there were |
| PerfTelemetry.PerfReader.Reconcile | apps/desktop/src/main/loop-perf-telemetry.ts:1115-1128 | The catch-up pass flushes the last line; afterwards records and failing lines are those of one parse of the whole text, the failing ones up to the cap of each chunk |
| PerfTelemetry.PerfReader.WatchThenReconcile | apps/desktop/src/main/loop-perf-telemetry.ts:794-1128 | For every sequence of states of the decoded file observed by ticks, followed by reconcile: the records, their order and phases equal those of a single parse; each failing line of a single parse is reported at most once, in order and under its number in the file, or else counted, and all are reported if no pass meets more than twenty. What a single parse emits is said line by line too: one event for each line that is a record, agent, tool, skill and spawn records with the phase of the last earlier phase line of their run and iteration, other kinds with none |
| PerfTelemetry.FailuresAppend | apps/desktop/src/main/loop-perf-telemetry.ts:620-650 | Failing lines keep their absolute line numbers however the lines are cut into chunks |
| PerfTelemetry.CappedCountsAll | apps/desktop/src/main/loop-perf-telemetry.ts:716-724 | Reported and suppressed failures of a chunk add up to all its failures |
| PerfTelemetry.RecordsAre | apps/desktop/src/main/loop-perf-telemetry.ts:623-714 | The records of a file are one event for each line that is one, in order; agent, tool, skill and spawn records carry the phase set by the last earlier line for their run and iteration, or none; every other kind carries none |
| PerfTelemetry.FailuresAre | apps/desktop/src/main/loop-perf-telemetry.ts:620-650 | The failures of a file are its malformed and invalid lines, in order, each with its line number |
| PerfTelemetry.CappedAre | apps/desktop/src/main/loop-perf-telemetry.ts:716-724 | A chunk reports its first twenty failures, in order; of more than twenty, one last event counts the others |
| Utf8Decoding.PiecesDecodeIff | apps/desktop/src/main/loop-perf-telemetry.ts:602-611 | Decoding the bytes of a text piece by piece, each alone, gives the text if and only if no piece begins inside a character |
| Utf8Decoding.CutDecodesIff | apps/desktop/src/main/loop-perf-telemetry.ts:602-611 | Two reads, decoded apart, give the text if and only if the first ends between two characters |
| Utf8Decoding.BoundaryStates | apps/desktop/src/main/loop-perf-telemetry.ts:826-843 | File lengths between characters: each state decodes to a prefix of the next, and the bytes read in between, decoded alone, to the text appended; these are the states the reader is proved for |
| Utf8Decoding.DecodeInverts | apps/desktop/src/main/loop-perf-telemetry.ts:608 | Decoding inverts encoding on well-formed characters |
| Utf8Decoding.CutInsideCharacter | apps/desktop/src/main/loop-perf-telemetry.ts:608 | A concrete cut inside a character turns both halves into replacement characters |
| Utf8Decoding.WellFormedIff | apps/desktop/src/main/loop-perf-telemetry.ts:602-611 | The characters the decoder takes as well-formed are exactly the encodings of Unicode scalar values (section 3 of RFC 3629) |
| PerfBytes.WatchBytes | apps/desktop/src/main/loop-perf-telemetry.ts:794-1128 | On bytes: a reader that starts at a byte offset and reads the file at any byte lengths between characters, each read decoded alone, emits the records of one parse of the decoded bytes and reports their failing lines as said, numbered in the file |
| PerfBytes.DecodedStatesGrow | apps/desktop/src/main/loop-perf-telemetry.ts:826-843 | At such lengths the states decoded read by read grow towards the text |
| PerfBytes.ReadBeforeIs | apps/desktop/src/main/loop-perf-telemetry.ts:602-611 | What is decoded read by read is what decoding at once gives |
| PerfBytes.NewlinesAreBytes | apps/desktop/src/main/loop-perf-telemetry.ts:106-136 | The newline bytes before an offset are as many as the newlines of the decoded text |
| Utf8.TruncateUtf8 | apps/desktop/src/main/loop-perf-telemetry.ts:34-44 | Keeps exactly as many characters from the front as fit into the bytes allowed, never a part of one |
| Utf8.FittingIsLargest | apps/desktop/src/main/loop-perf-telemetry.ts:34-44 | That number of characters is the largest that fits |
| EventChunker.ChunkOversizedSession | apps/desktop/src/main/agent-session-sync-service.ts:973-1005 | With a positive event budget the chunks carry all events in order, each is non-empty and within the budget unless it is a single event, and no feasible cut has fewer pieces; otherwise a single chunk without events |
| EventChunker.TightIsMinimal | apps/desktop/src/main/agent-session-sync-service.ts:990-999 | A cut whose pieces cannot take the next event uses no more pieces than any feasible cut |
| EventChunker.ChunkLength | apps/desktop/src/main/agent-session-sync-service.ts:48-50 | The true JSON length of a chunk is base bytes plus event bytes plus n-1 separators |
| EventChunker.FitsCapIff | apps/desktop/src/main/agent-session-sync-service.ts:978-999 | A chunk fits the byte cap if and only if its separators fit the event budget too |
| EventChunker.CapExceeded | apps/desktop/src/main/agent-session-sync-service.ts:990-999 | A concrete session whose only chunk is one byte over the cap |
| SessionSync.ScanIs | apps/desktop/src/main/agent-session-sync-service.ts:467-506 | Whatever the order of the rows, the new watermark is the largest timestamp, exactly the ids at it are remembered, and the queue gains exactly the rows not yet seen at the old watermark |
| SessionSync.LeadingIdsAreAtTop | apps/desktop/src/main/agent-session-sync-service.ts:780-792 | The ids collected for the first watermark all stand at it |
| SessionSync.PushAllIs | apps/desktop/src/main/agent-session-sync-service.ts:453-459 | The back-fill queue gains every listed id once |
| SessionSync.RemoveKeepsOk | apps/desktop/src/main/agent-session-sync-service.ts:708-724 | Removing from a queue keeps it free of duplicates and equal to its id set |
| SessionSync.PickedAreReady | apps/desktop/src/main/agent-session-sync-service.ts:514-531 | No id is picked before its back-off deadline, at most the limit, none twice |
| SessionSync.PickIsFirst | apps/desktop/src/main/agent-session-sync-service.ts:514-531 | The picked ids are the first ready ones in queue order, as many as there are up to the limit |
| SessionSync.AssembleIs | apps/desktop/src/main/agent-session-sync-service.ts:359-393 | A batch is never empty, holds only loaded sessions, none twice, and only its first session can be split |
| SessionSync.AssembleFills | apps/desktop/src/main/agent-session-sync-service.ts:359-393 | The ids of a batch are those of a prefix of the loaded sessions and its bytes their sum; it exceeds 262144 bytes only with a single session, the next loaded session would have exceeded them, and chunks are outstanding exactly for an oversized first session that was split |
| SessionSync.OutcomesKeepCounters | apps/desktop/src/main/agent-session-sync-service.ts:602-679 | Each counter is the number of counted failures since the last full acceptance or dead-letter, and below its cap |
| SessionSync.SurvivalBound | apps/desktop/src/main/agent-session-sync-service.ts:602-679 | A session survives at most (3-1)+(5-1) counted failures between clearings |
| SessionSyncChoice.BackfillInOrder | apps/desktop/src/main/agent-session-sync-service.ts:453-459 | The back-fill queue lists the sessions in the order of the listing, behind those that it held |
| SessionSyncChoice.UpdatesInOrder | apps/desktop/src/main/agent-session-sync-service.ts:467-506 | The incremental queue goes on with new rows in their order |
| SessionSyncChoice.DequeueInOrder | apps/desktop/src/main/agent-session-sync-service.ts:708-724 | What is left of a queue stands in its order |
| SessionSyncChoice.ChosenIs | apps/desktop/src/main/agent-session-sync-service.ts:301-344 | A cycle goes on with at most ten ready incremental sessions if the last such batch was chosen 30 seconds ago or more, otherwise with at most three ready back-fill ones, and ends when none is ready |
| SessionSyncChoice.IncrementalBatchesAreApart | apps/desktop/src/main/agent-session-sync-service.ts:301-344 | Over every run without a reset in between, two incremental batches are chosen at least 30 seconds apart |
| SessionSyncChoice.GivenUpIff | apps/desktop/src/main/agent-session-sync-service.ts:602-679 | A failed batch gives up exactly the sessions for which it was the third time-out since their counters were cleared, or the fifth rate limit while the relay is up; the other limited ones wait for the deadline |
| SessionSyncChoice.LimitedWaits | apps/desktop/src/main/agent-session-sync-service.ts:649-671 | A limited session that is not given up is in no batch chosen within the next 30 seconds |
| SessionSyncChoice.AnswerTakesOut | apps/desktop/src/main/agent-session-sync-service.ts:533-706 | An accepted batch leaves its queue unless it is a chunk and more are outstanding, an invalid one leaves it, of a failed one the sessions given up, a refused one stays; a failure drops the outstanding chunks of its sessions; the other queue is left alone |
| SessionSyncChoice.AnswerCounts | apps/desktop/src/main/agent-session-sync-service.ts:533-706 | For every session and answer: the time-outs, rate limits and deadline kept of it afterwards |
| SessionSyncChoice.ResetIsNew | apps/desktop/src/main/agent-session-sync-service.ts:185-206 | After a reset the service is as new but for the cycles under way |
| SessionSyncChoice.FirstCursorIs | apps/desktop/src/main/agent-session-sync-service.ts:436-465 | Rows that come newest first set the first watermark to the newest and remember exactly the sessions at it |
| SessionSyncChoice.ChunkComesFirst | apps/desktop/src/main/agent-session-sync-service.ts:252-293 | While chunks of a session are outstanding, a cycle sends the next one before anything else |
| SessionSyncChoice.ChunksGoOut | apps/desktop/src/main/agent-session-sync-service.ts:252-293 | If all are accepted they go out one by one; only after the last is the session taken from its queue and finished |
| SessionSyncLoss.StepLosesNothingIff | apps/desktop/src/main/agent-session-sync-service.ts:252-569 | From a state without a lost update, a step loses none if and only if neither guard holds: an acknowledgement takes a session out of its queue with nothing else standing for its current version, or a listing arrives whose cursor is past a session that is neither queued nor finished |
| SessionSyncLoss.StepLosesExactly | apps/desktop/src/main/agent-session-sync-service.ts:252-569 | The same session by session: a kept version is given up by exactly the steps whose guard names it |
| SessionSyncLoss.RunLosesNothingIff | apps/desktop/src/main/agent-session-sync-service.ts:252-569 | In every run, whatever resets and splits it contains: no update is lost up to a state if and only if no step before it lost one |
| SessionSyncLoss.EveryRunIsSound | apps/desktop/src/main/agent-session-sync-service.ts:185-724 | In every state of every run each queue is free of duplicates and equal to its id set, every counter is what the log says, and every cursor lies within the source |
| SessionSyncLoss.SplitInBatchLosesIff | apps/desktop/src/main/agent-session-sync-service.ts:533-569 | When a batch of several sessions, one of them split, is accepted, nothing is lost if and only if the split session is in the other queue, to be seen again, or finished |
| SessionSyncLoss.StaleListingLosesIff | apps/desktop/src/main/agent-session-sync-service.ts:467-512 | When rows arrive for a cycle, nothing is lost if and only if every session its cursor is past is queued or finished |
| SessionSyncLoss.ListingAfterReset | apps/desktop/src/main/agent-session-sync-service.ts:185-206 | When they arrive right after a reset, if and only if every session the cursor is past is finished |
| SessionSyncLoss.CleanRunLosesNothing | apps/desktop/src/main/agent-session-sync-service.ts:252-434 | In a run in which no reset falls into a listing or load and every split session goes out alone, no step loses an update |
| SessionSyncRuns.RunKeepsInv | apps/desktop/src/main/agent-session-sync-service.ts:252-434 | The invariant holds in every state of every clean run |
| SessionSyncRuns.NoUpdateLost | apps/desktop/src/main/agent-session-sync-service.ts:436-569 | In every state of a clean run each session's current version is still to be seen, queued, or finished; queues are duplicate-free; counters match the log |
| SessionSyncCounterexamples.SplitOversized | apps/desktop/src/main/agent-session-sync-service.ts:359-375 | The oversized session of the counterexample is one that the chunker cuts in two, each chunk within the cap |
| SessionSyncCounterexamples.SharedBatchLosesSession | apps/desktop/src/main/agent-session-sync-service.ts:543-556 | A complete run in which a split session whose first chunk shared its batch is lost, and the acknowledgement that loses it |
| SessionSyncCounterexamples.ResetDuringListingLosesBacklog | apps/desktop/src/main/agent-session-sync-service.ts:185-206 | A complete run in which a reset during a listing loses the backlog, and the listing that loses it |
| SessionSyncService.AgentSessionSyncService.constructor | apps/desktop/src/main/agent-session-sync-service.ts:161-163 | A new service is the initial state |
| SessionSyncService.AgentSessionSyncService.ResetSourceState | apps/desktop/src/main/agent-session-sync-service.ts:185-206 | Clears cursor, queues, counters, pending chunks and token |
| SessionSyncService.AgentSessionSyncService.BeginSync | apps/desktop/src/main/agent-session-sync-service.ts:252-293 | A cycle takes the token and, if chunks are outstanding, the next chunk |
| SessionSyncService.AgentSessionSyncService.EndSync | apps/desktop/src/main/agent-session-sync-service.ts:428-433 | Only the cycle that still owns the token gives it back |
| SessionSyncService.AgentSessionSyncService.CollectIdsAtTimestamp | apps/desktop/src/main/agent-session-sync-service.ts:780-792 | The loop with its break collects the leading ids at the timestamp |
| SessionSyncService.AgentSessionSyncService.InitializeBackfillQueue | apps/desktop/src/main/agent-session-sync-service.ts:436-465 | The first listing sets the watermark and queues every session once |
| SessionSyncService.AgentSessionSyncService.EnqueueIncrementalUpdates | apps/desktop/src/main/agent-session-sync-service.ts:467-506 | The loop over the updated rows moves the cursor and queues the new ones, as the scan function says |
| SessionSyncService.AgentSessionSyncService.ResumeAfterListing | apps/desktop/src/main/agent-session-sync-service.ts:436-465 | From the full listing to the next await |
| SessionSyncService.AgentSessionSyncService.ResumeAfterUpdates | apps/desktop/src/main/agent-session-sync-service.ts:467-506 | From the incremental listing to the choice of a batch, as the step of the model |
| SessionSyncService.AgentSessionSyncService.PickReadyCandidates | apps/desktop/src/main/agent-session-sync-service.ts:514-531 | The loop picks the first ready ids in queue order |
| SessionSyncService.AgentSessionSyncService.ChooseCandidates | apps/desktop/src/main/agent-session-sync-service.ts:301-344 | Incremental candidates at most every 30 seconds, back-fill when there is none |
| SessionSyncService.AgentSessionSyncService.AssembleBatch | apps/desktop/src/main/agent-session-sync-service.ts:359-393 | The loop fills the batch: a prefix of the loaded sessions whose bytes add up to at most 262144 unless it is a single session, and which the next one would have exceeded; an oversized first session is split |
| SessionSyncService.AgentSessionSyncService.DequeueIds | apps/desktop/src/main/agent-session-sync-service.ts:708-724 | Removes the ids from the queue they were sent from, and from its id set |
| SessionSyncService.AgentSessionSyncService.ClearCounters | apps/desktop/src/main/agent-session-sync-service.ts:546-554 | An accepted batch clears the counters of its sessions |
| SessionSyncService.AgentSessionSyncService.CountTimeout | apps/desktop/src/main/agent-session-sync-service.ts:602-617 | One timed-out session: counted, or dead-lettered at the third time |
| SessionSyncService.AgentSessionSyncService.CountRateLimit | apps/desktop/src/main/agent-session-sync-service.ts:649-671 | One rate-limited session: counted only while the relay is up, deferred, or dead-lettered at the fifth time |
| SessionSyncService.AgentSessionSyncService.CountFailures | apps/desktop/src/main/agent-session-sync-service.ts:602-671 | The loop over a failed batch |
| SessionSyncService.AgentSessionSyncService.HandleAccepted | apps/desktop/src/main/agent-session-sync-service.ts:540-556 | Dequeues an accepted batch unless chunks are outstanding |
| SessionSyncService.AgentSessionSyncService.HandleFailure | apps/desktop/src/main/agent-session-sync-service.ts:602-679 | Counts the failure and dequeues what it dead-letters |
| SessionSyncService.AgentSessionSyncService.HandleBatchAck | apps/desktop/src/main/agent-session-sync-service.ts:533-706 | Every acknowledgement is handled as the model says |
| SessionSyncService.AgentSessionSyncService.DropDeadLettered | apps/desktop/src/main/agent-session-sync-service.ts:618-619 | Dead-lettered sessions leave the queue they were sent from |
| SessionSyncService.AgentSessionSyncService.ResumeAfterSend | apps/desktop/src/main/agent-session-sync-service.ts:410-433 | A stale cycle ignores the answer; the active one handles it and ends |
| SignatureVerifier.NonceKeyInjective | apps/desktop/src/main/command-signature-verifier.ts:103-104 | Different (fingerprint, nonce) pairs have different cache keys |
| SignatureVerifier.CallRefines | apps/desktop/src/main/command-signature-verifier.ts:46-140 | With a clock that has not gone back, the cache holds exactly the accepted entries within the age window, and the verdict is that of a verifier that forgets nothing |
| SignatureVerifier.RunIsExact | apps/desktop/src/main/command-signature-verifier.ts:83-140 | The pruned cache is exact in every state of a run with a non-decreasing clock |
| SignatureVerifier.NoReplay | apps/desktop/src/main/command-signature-verifier.ts:103-126 | No signed payload is accepted twice in any such run |
| SignatureChecks.VerdictIff | apps/desktop/src/main/command-signature-verifier.ts:46-140 | A command with a readable payload of an authorized key is accepted exactly when the payload is at most 45 seconds old and 5 ahead, belongs to it, is unused, and carries that key's signature; each refusal names the first check that failed |
| SignatureChecks.UnreadIff | apps/desktop/src/main/command-signature-verifier.ts:46-82 | Without such a payload nothing is remembered or forgotten, and the refusal says what is missing |
| SignatureChecks.InOrderIff | apps/desktop/src/main/command-signature-verifier.ts:83-126 | What the statements about runs call a payload in order, and a call that forgets one, in these terms |
| SignatureChecks.AcceptedExactly | apps/desktop/src/main/command-signature-verifier.ts:46-140 | Over every run whose clock does not go back, a call is accepted exactly when its payload passes these checks and none of its key and nonce, at most 45 seconds old, was accepted before |
| SignatureReplay.CacheIs | apps/desktop/src/main/command-signature-verifier.ts:103-140 | In every run, whatever the clock does, the cache holds exactly what was accepted and not since forgotten by a call that pruned more than 45 seconds after its timestamp |
| SignatureReplay.AcceptedIff | apps/desktop/src/main/command-signature-verifier.ts:46-140 | In every run a payload in order is accepted if and only if every earlier acceptance of its fingerprint and nonce was so forgotten |
| SignatureReplay.ReplayAcceptedIff | apps/desktop/src/main/command-signature-verifier.ts:46-140 | An accepted payload presented again in order is accepted again if and only if its acceptance and every later one of its nonce was forgotten in between |
| SignatureReplay.NextReplayIff | apps/desktop/src/main/command-signature-verifier.ts:46-140 | With no acceptance of the nonce in between: if and only if some call in between pruned more than 45 seconds after the timestamp |
| SignatureReplay.RepeatsIff | apps/desktop/src/main/command-signature-verifier.ts:103-140 | In every run the history holds the same acceptance twice if and only if a forgotten payload was presented again in order |
| SignatureReplay.ReplayTurnsClockBack | apps/desktop/src/main/command-signature-verifier.ts:133-140 | A payload is accepted twice only if the clock went back from a forgetting call in between |
| SignatureReplay.ClockBackAcceptsTwice | apps/desktop/src/main/command-signature-verifier.ts:103-140 | A complete run with such a clock accepts one payload twice |
| SignatureVerifier.CommandSignatureVerifier.constructor | apps/desktop/src/main/command-signature-verifier.ts:42-45 | A new verifier has seen nothing |
| SignatureVerifier.CommandSignatureVerifier.PruneSeenNonces | apps/desktop/src/main/command-signature-verifier.ts:133-140 | The loop deletes exactly the entries older than the window |
| SignatureVerifier.CommandSignatureVerifier.VerifyCommand | apps/desktop/src/main/command-signature-verifier.ts:47-131 | The checks in their order, with the verdict and new cache of the specification |
| CanonicalStringify.StableStringifyIsFaithful | apps/desktop/src/main/command-signature-verifier.ts:194-216 | Two JSON values print to the same canonical text if and only if they are equal up to the order of object keys, with undefined read as null; which text it is, `CanonicalText` says |
| CanonicalStringify.StableStringifyIsPrint | apps/desktop/src/main/command-signature-verifier.ts:194-216 | The recursion over sorted keys, each printed with the value looked up under it, prints the canonical value, whose keys stand in the order of `CanonicalJson.LessIsPrecedes` |
| CanonicalJson.Unambiguous | apps/desktop/src/main/command-signature-verifier.ts:194-216 | Two canonical values whose texts, each followed by something, agree are the same value and are followed by the same |
| CanonicalJson.DecodeEscape | apps/desktop/src/main/command-signature-verifier.ts:198-204 | A quoted string (section 7 of RFC 8259, with lone surrogates escaped) is read back exactly |
| CanonicalJson.SortIs | apps/desktop/src/main/command-signature-verifier.ts:208-213 | Sorting the keys of an object keeps its meaning; the order they come in is that of `CanonicalText.ObjectText` |
| CanonicalJson.CanonicalUnique | apps/desktop/src/main/command-signature-verifier.ts:208-213 | Canonical values with the same meaning are identical |
| CanonicalJson.LessIsPrecedes | apps/desktop/src/main/command-signature-verifier.ts:208-213 | A key comes before another exactly when it is a proper prefix of it or has the smaller code unit where they first differ |
| CanonicalText.ObjectText | apps/desktop/src/main/command-signature-verifier.ts:206-216 | The text of an object lists each of its keys once, of any two the earlier a proper prefix of the later or smaller where they first differ, each with a colon and the text of its value, between braces and commas |
| CanonicalText.SmallObjects | apps/desktop/src/main/command-signature-verifier.ts:206-216 | Objects of no, one and two fields, spelled out |
| CanonicalText.ArrayText | apps/desktop/src/main/command-signature-verifier.ts:205-207 | The text of an array lists the texts of its items in order |
| CanonicalText.PlainTexts | apps/desktop/src/main/command-signature-verifier.ts:194-204 | Undefined prints as null does, booleans and numbers as themselves |
| CanonicalText.EscapeAppend | apps/desktop/src/main/command-signature-verifier.ts:194-204 | Text is escaped unit by unit, surrogate pairs apart |
| CanonicalText.UnitTexts | apps/desktop/src/main/command-signature-verifier.ts:194-204 | Plain units and surrogate pairs print as they are; a quote, a backslash and five control characters after a backslash |
| CanonicalText.HexTexts | apps/desktop/src/main/command-signature-verifier.ts:194-204 | The other control characters and lone surrogates print as four hexadecimal digits |
| CostMath.MatchIffSpells | apps/desktop/src/main/cost-math.ts:94-100 | The pattern match succeeds with these parts if and only if the trimmed text is spelled so |
| CostMath.ParseDecimalCentsToMicroCents | apps/desktop/src/main/cost-math.ts:93-118 | Succeeds exactly for decimal texts whose value is safe, with the exact half-up rounding of the magnitude |
| CostMath.CodeIsRounded | apps/desktop/src/main/cost-math.ts:105-115 | The digit-wise computation is half-up rounding of 10000 times the exact value |
| CostMath.TiesAwayFromZero | apps/desktop/src/main/cost-math.ts:105-116 | The result is the nearest number of micro-cents, and an amount halfway between two goes away from zero |
| CostMath.OddInSign | apps/desktop/src/main/cost-math.ts:101-116 | Negating the text negates the result |
| CostMath.TrailingZeroIgnored | apps/desktop/src/main/cost-math.ts:103-108 | Trailing fractional zeros do not matter |
| CostMath.ParseInvertsPrint | apps/desktop/src/main/cost-math.ts:93-118 | Parsing inverts a four-decimal printer on every amount |
| CostMath.ParseError | apps/desktop/src/main/cost-math.ts:93-118 | The result is at most half a micro-cent from the exact amount |
| CostMath.SumMicroCents | apps/desktop/src/main/cost-math.ts:131-139 | Sums exactly, and fails exactly when an element or a running total is unsafe |
| CostMath.SumError | apps/desktop/src/main/cost-math.ts:131-139 | A sum of n parsed values is at most n/2 micro-cents off |
| CostMath.ComputeDrift | apps/desktop/src/main/cost-math.ts:159-173 | The difference, and a percentage unless the vendor billed nothing; fails for unsafe values |
| CostMath.DriftError | apps/desktop/src/main/cost-math.ts:159-173 | The drift of two sums is at most half a micro-cent per parsed value off |
| Jobs.GetIsLatest | apps/desktop/src/main/job-store.ts:202-224 | After any sequence of upserts, getById returns the last version of the id if it was not terminal or fewer than 100 other ids became terminal after it, and nothing otherwise |
| Jobs.TerminalIsRecencyCut | apps/desktop/src/main/job-store.ts:205-214 | The capped terminal list is the first 100 of the list of all terminal ids by recency |
| Jobs.DropThenCut | apps/desktop/src/main/job-store.ts:210-213 | Removing an id and cutting to the cap can be exchanged |
| Jobs.NewerAreInFront | apps/desktop/src/main/job-store.ts:205-214 | The ids in front of a job in that list are exactly the ones upserted as terminal since |
| Jobs.RecencyDistinct | apps/desktop/src/main/job-store.ts:205-214 | The terminal list has unique ids and only terminal jobs |
| Jobs.UpsertKeepsOk | apps/desktop/src/main/job-store.ts:202-220 | Upserting keeps ids unique in both lists, each list to its own kind, and the cap |
| Jobs.ReloadIsIdentity | apps/desktop/src/main/job-store.ts:191-199 | Persisting and reloading is the identity |
| Jobs.FromEntriesIs | apps/desktop/src/main/job-store.ts:194-196 | Reading any persisted array gives unique ids with the last entry of each |
| Jobs.UpsertThenGetByLoop | apps/desktop/src/main/job-store.ts:226-233 | When a loop has one job, looking it up by loop gives what was upserted last |
| Jobs.GetByLoopIs | apps/desktop/src/main/job-store.ts:226-233 | A lookup by loop gives the first active job of the loop, or if there is none the first terminal one, also when the loop has several |
| Jobs.SetInPlace | apps/desktop/src/main/job-store.ts:202-220 | Setting an entry of an id that is there, as upserting an active job does, leaves it in its place and the others alone |
| Jobs.UpsertOfOther | apps/desktop/src/main/job-store.ts:205-214 | Another loop's upsert leaves the lookup alone, unless the cap pushes a terminal job out |
| Jobs.ReconcileIs | apps/desktop/src/main/job-store.ts:248-262 | After reconciling, a job is active exactly when it was and its check did not end it; the ended ones are returned |
| Jobs.JobStore.constructor | apps/desktop/src/main/job-store.ts:181-200 | Reads the persisted arrays into the two lists |
| Jobs.JobStore.Persist | apps/desktop/src/main/job-store.ts:264-267 | What the constructor reads back from the persisted arrays is the same store |
| Jobs.JobStore.Upsert | apps/desktop/src/main/job-store.ts:202-220 | Moves a job between the lists, newest terminal first, and what is persisted reads back as the store |
| Jobs.JobStore.GetById | apps/desktop/src/main/job-store.ts:222-224 | Active first, then terminal |
| Jobs.JobStore.GetByLoopId | apps/desktop/src/main/job-store.ts:226-233 | The loop finds the first active job of the loop, then the first terminal one |
| Jobs.JobStore.Reconcile | apps/desktop/src/main/job-store.ts:248-262 | The loop over a snapshot upserts what changed |
| FinalizationRuns.StepKeepsInvExactly | apps/desktop/src/main/loop-finalizer.ts:1266-1596 | A step keeps the invariant (the record, while the store holds one, says exactly what was persisted and counts exactly the replays; reported successes are backed) if and only if it does not make a stale copy the record: the dead-job path writing back a copy that lacks a flag persisted meanwhile, or, after the store dropped the record, a run writing its own copy that lacks a flag or a counted attempt; otherwise the record then lacks one |
| FinalizationRuns.NoLatePost | apps/desktop/src/main/loop-finalizer.ts:470-623 | Over any crashes, boots, concurrent runs and answers: once completedEventPostedAt is persisted, no run that starts later sends a completed or error event |
| FinalizationRuns.NothingSentAfterSettling | apps/desktop/src/main/loop-finalizer.ts:478-480 | If no run was in flight at that point, nothing at all is sent afterwards |
| FinalizationRuns.CloudFinalizedIsBacked | apps/desktop/src/main/loop-finalizer.ts:1462-1564 | A run that reported cloudFinalized leaves both flags set if it was to complete, and the event flag if it was to fail; by status `ReportsFollowStatus` says which |
| FinalizationRuns.ReplayBound | apps/desktop/src/main/boot-recovery.ts:190-259 | Across all boots the dead-job path starts at most three finalizations of a loop, recoveryAttempts counts them and never decreases |
| FinalizationRuns.GoneIsReplayedAsAnyOther | apps/desktop/src/main/boot-recovery.ts:207-244 | The answer that the loop is gone leaves no trace but the deleted token: the record just made terminal is overwritten with the copy read before |
| FinalizationHarm.LostFlagRepeatsPost | apps/desktop/src/main/loop-finalizer.ts:1266-1596 | From every state whose record owes an event and lacks the event flag, some continuation of a crash and a repair sends the event, by a run that starts after all others |
| FinalizationHarm.RepairSendsIff | apps/desktop/src/main/loop-finalizer.ts:1266-1596 | After a crash a repair goes on to send an event if and only if the record owes one and lacks the flag: the completed event for COMPLETED or RUNNING, the error event for FAILED, STOPPED or UNKNOWN |
| FinalizationHarm.UncleanStepRepeatsPost | apps/desktop/src/main/loop-finalizer.ts:1266-1596 | After an unclean step that leaves a record owing an event without the flag although the event was settled, a run started later sends it again |
| FinalizationRuns.EvictionLosesFlag | apps/desktop/src/main/loop-finalizer.ts:1543-1556 | A complete run in which the store drops the record during finalization, the run writes back its older copy, and the reported success is not backed |
| FinalizationRuns.StaleWriteRepeatsPost | apps/desktop/src/main/boot-recovery.ts:213-234 | A complete run in which the stale write of the dead-job path makes a later run send the event again |
| FinalizationRuns.RetryableStatuses | apps/desktop/src/main/loop-finalizer.ts:1217-1227 | For error texts with an HTTP status, retryable exactly for 429 and 500 or more |
| FinalizationStatus.StatusDecides | apps/desktop/src/main/loop-finalizer.ts:1341-1541 | The status a run resolves decides what it asks first: artifacts, after the git work of an EXECUTE loop, for COMPLETED or RUNNING; the support bundle for FAILED, STOPPED or UNKNOWN; nothing otherwise |
| FinalizationStatus.RequestsFollowStatus | apps/desktop/src/main/loop-finalizer.ts:1266-1596 | Over every run: a run waiting for git work, artifacts or the completed event has resolved COMPLETED or RUNNING, one waiting for the bundle or the error event FAILED, STOPPED or UNKNOWN; an EXECUTE run without work has resolved FAILED |
| FinalizationStatus.EventsFollowStatus | apps/desktop/src/main/loop-finalizer.ts:470-623 | Over every run: an event is sent only by a run in flight whose status asks for that event |
| FinalizationStatus.ReportsFollowStatus | apps/desktop/src/main/loop-finalizer.ts:1462-1564 | Over every clean run: a reported success leaves both flags set for COMPLETED or RUNNING, and the event flag for FAILED, STOPPED or UNKNOWN |
| FinalizationStatus.CompletedFollowsStatus | apps/desktop/src/main/loop-finalizer.ts:1341-1377 | Over every run: finalization writes COMPLETED over another status only for a run that resolved COMPLETED or RUNNING, or when it writes back a copy that said so |
| FinalizationStatus.ResolvedIsSaved | apps/desktop/src/main/loop-finalizer.ts:625-655 | A boot or a repair writes the status it resolves into the record at once, a success as COMPLETED, unless its copy says that this was done before |
| FinalizationStatus.LiveExitSaves | apps/desktop/src/main/loop-finalizer.ts:625-655 | A live exit writes it with the last answer |
| FinalizationStatus.UploadThenEvent | apps/desktop/src/main/loop-finalizer.ts:421-480 | When the artifacts are answered for, however, the completed event goes out unless the run knows that it did; a successful upload is recorded |
| FinalizationStatus.SupportThenEvent | apps/desktop/src/main/loop-finalizer.ts:1510-1541 | After the support bundle the error event goes out unless the run knows that it did |
| FinalizationStatus.StartsBehind | apps/desktop/src/main/loop-finalizer.ts:1266-1339 | A finalization that does not go ahead reads the state file first, or returns at once and leaves record, token and cloud alone |
| FinalizationStatus.AnswerEnds | apps/desktop/src/main/loop-finalizer.ts:1543-1596 | The last answer ends the run: finalized without error or token, or with the error recorded, the token kept exactly for a retryable failure with attempts left |
| FinalizationStatus.ThrowEnds | apps/desktop/src/main/boot-recovery.ts:252-290 | A finalization that throws ends; the error is recorded for a dead job only |
| FinalizationStatus.TimedOutEnds | apps/desktop/src/main/boot-recovery.ts:207-244 | A loop that timed out in the cloud is recorded as such, without token, and nothing is sent |
| FinalizationStatus.TakenUpIf | apps/desktop/src/main/boot-recovery.ts:190-206 | A boot takes up only a loop that is not finalized and has fewer than three attempts; with three made since it is given up, without its token nothing is tried, and otherwise the cloud is asked for its status |
| FinalizationStatus.NoStatusIsRetryable | apps/desktop/src/main/loop-finalizer.ts:1217-1227 | An error without an HTTP status is retryable, none at all is not |
| LoopFinalizers.LoopFinalizer.PersistFinalJobStatus | apps/desktop/src/main/loop-finalizer.ts:625-655 | Persists the final status once, on the current record |
| LoopFinalizers.LoopFinalizer.ConcludeRun | apps/desktop/src/main/loop-finalizer.ts:1543-1582 | Writes cloudFinalizedAt or the error on the current record, and deletes the token unless a retry makes sense |
| LoopFinalizers.LoopFinalizer.Finish | apps/desktop/src/main/boot-recovery.ts:245-251 | A dead job at the cap after a retryable failure is given up |
| LoopFinalizers.LoopFinalizer.BeginCloudStage | apps/desktop/src/main/loop-finalizer.ts:1462-1541 | Success, error and silent statuses begin their cloud calls |
| LoopFinalizers.LoopFinalizer.BeginFinalize | apps/desktop/src/main/loop-finalizer.ts:1379-1406 | EXECUTE runs finalize their git work first |
| LoopFinalizers.LoopFinalizer.ResolveStatus | apps/desktop/src/main/loop-finalizer.ts:1341-1377 | An EXECUTE run without tokens failed; the status is persisted before the cloud unless the loop just exited; COMPLETED or RUNNING go on to git work or artifacts, FAILED, STOPPED or UNKNOWN to the bundle, any other ends the run |
| LoopFinalizers.LoopFinalizer.FinalizeLoopFromRuntime | apps/desktop/src/main/loop-finalizer.ts:1266-1339 | The early returns and the derivation of a dead running job's status |
| LoopFinalizers.LoopFinalizer.RecordUpload | apps/desktop/src/main/loop-finalizer.ts:421-468 | Persists a successful upload on the current record and goes on to the event |
| LoopFinalizers.LoopFinalizer.RecordPost | apps/desktop/src/main/loop-finalizer.ts:470-623 | Persists a sent event on the current record and concludes |
| LoopFinalizers.LoopFinalizer.MarkRecoveryGiveUp | apps/desktop/src/main/boot-recovery.ts:292-301 | Sets cloudFinalizedAt so that the loop is no candidate again |
| LoopFinalizers.LoopFinalizer.MarkRecoveryFailure | apps/desktop/src/main/boot-recovery.ts:282-290 | Records the error of a thrown finalization |
| LoopFinalizers.LoopFinalizer.BeginDeadJobFinalization | apps/desktop/src/main/boot-recovery.ts:190-212 | Gives up at the cap, skips a loop without token, otherwise asks for its status |
| LoopFinalizers.LoopFinalizer.FinalizeAsTerminal | apps/desktop/src/main/boot-recovery.ts:483-506 | Makes the record terminal and deletes the token |
| LoopFinalizers.LoopFinalizer.ReplayFinalization | apps/desktop/src/main/boot-recovery.ts:213-244 | Counts the attempt on the copy read before and finalizes |
| CommandKeys.ClassificationPartitions | apps/desktop/src/main/command-key-target-context.ts:121-202 | The counts partition the fetch, relevant and ignored keys are exactly the matching and other ones, and which mode results when |
| CommandKeyFates.RelevantIff | apps/desktop/src/main/command-key-target-context.ts:55-120 | A fetched key is relevant exactly when its context grants access to a target of the owner, names the active compute target, and names the active gateway or none |
| CommandKeyFates.OtherwiseIff | apps/desktop/src/main/command-key-target-context.ts:55-120 | A key without a context is of the old kind; it is ill-formed exactly when its context lacks the access or a UUID |
| CommandKeyFates.UuidIff | apps/desktop/src/main/command-key-target-context.ts:5-64 | A UUID is five groups of hexadecimal digits, the third beginning with 1 to 8, the fourth with 8, 9, a or b |
| CommandKeyFates.ClassifiedAs | apps/desktop/src/main/command-key-target-context.ts:121-202 | The kind of a fetch from what its keys are, and whom the user is told about |
| CommandKeys.PassIsOneRule | apps/desktop/src/main/command-key-reconciler.ts:88-130 | The three modes come to one rule: with an active target the stored keys are reconciled with the relevant ones and stale ones dropped; without one nothing happens |
| CommandKeys.PassSettles | apps/desktop/src/main/command-key-reconciler.ts:88-130 | After a pass every stored organization key is registered among the relevant keys; manual and unregistered unknown keys are kept in order; a second pass changes nothing |
| CommandKeys.PassWithoutTarget | apps/desktop/src/main/command-key-reconciler.ts:88-102 | Without an active target a pass changes nothing |
| CommandKeys.StaleKeySurvivesIff | apps/desktop/src/main/command-key-reconciler.ts:88-102 | A stale key survives a pass if and only if there is no target, or one with an empty id while keys are fetched |
| CommandKeys.KeptAre | apps/desktop/src/main/authorized-command-key-store.ts:155-190 | Reconciling drops exactly the stale keys, promotes the registered unknown ones in place and keeps everything else in order |
| CommandKeys.RegisteredAre | apps/desktop/src/main/authorized-command-key-store.ts:137-151 | The registrations are the well-formed fingerprints of the relevant keys |
| CommandKeyFates.RegisteredLast | apps/desktop/src/main/authorized-command-key-store.ts:137-151 | What is registered for a fingerprint is what the last key with it says: its trimmed id, or none if that is blank |
| CommandKeyFates.FingerprintIff | apps/desktop/src/main/authorized-command-key-store.ts:9 | A fingerprint is cl: and 16 to 64 letters, digits, underscores or hyphens |
| CommandKeyFates.ReconcileFates | apps/desktop/src/main/authorized-command-key-store.ts:155-190 | Manual keys stay, organization keys that are not registered go, unknown ones that are become organization keys with that id; the order stays |
| CommandKeyFates.ReportsAre | apps/desktop/src/main/authorized-command-key-store.ts:155-196 | It reports as removed and promoted exactly the keys that were, and so something exactly when the keys change |
| CommandKeys.ApproveThenRemove | apps/desktop/src/main/authorized-command-key-store.ts:87-127 | Approving a new key and removing it gives the keys back |
| CommandKeys.WithoutIs | apps/desktop/src/main/authorized-command-key-store.ts:115-127 | Removing drops exactly the keys with the fingerprint |
| CommandKeys.ReconcileKeepsOneEach | apps/desktop/src/main/authorized-command-key-store.ts:161-185 | Reconciling never stores a fingerprint twice |
| CommandKeyReconcilers.ClassifyForTarget | apps/desktop/src/main/command-key-target-context.ts:121-202 | The loop classifies every key and counts it once |
| CommandKeyReconcilers.AuthorizedCommandKeyStore.Authorize | apps/desktop/src/main/authorized-command-key-store.ts:87-113 | Fails without effect on bad material, a wrong claimed fingerprint or a duplicate; otherwise appends the key, every field of it stated from the approval, and un-rejects exactly its fingerprint |
| CommandKeyReconcilers.AuthorizedCommandKeyStore.Remove | apps/desktop/src/main/authorized-command-key-store.ts:115-127 | Removes by trimmed fingerprint and says whether there was such a key |
| CommandKeyReconcilers.AuthorizedCommandKeyStore.Reject | apps/desktop/src/main/authorized-command-key-store.ts:198-211 | Rejects a well-formed fingerprint once |
| CommandKeyReconcilers.AuthorizedCommandKeyStore.ReconcileOrganizationKeys | apps/desktop/src/main/authorized-command-key-store.ts:133-196 | Builds the registrations in a loop and rewrites the keys |
| CommandKeyReconcilers.AuthorizedCommandKeyStore.RewriteKeys | apps/desktop/src/main/authorized-command-key-store.ts:155-196 | The rewrite, with what it removed and promoted; no write when nothing changed |
| CommandKeyReconcilers.CommandKeyReconciler.BeginReconcile | apps/desktop/src/main/command-key-reconciler.ts:70-85 | A pass starts unless one is running or there is no API key |
| CommandKeyReconcilers.CommandKeyReconciler.FinishReconcile | apps/desktop/src/main/command-key-reconciler.ts:86-142 | A failed fetch changes nothing; otherwise the stored keys are those of the pass, and onChanged fires exactly for a change |
| HookInstaller.CommandMentions | apps/desktop/src/main/agent-monitor-hooks-core.ts:70-112 | A made command mentions a file name exactly when its executable, its handler or its hook type does |
| HookInstaller.ReferencesIff | apps/desktop/src/main/agent-monitor-hooks-core.ts:66-91 | An entry belongs to a handler exactly when its own command or that of one of its hooks holds the handler's file name behind a slash or backslash and before a quote or space |
| HookInstaller.MadeEntryIsRecognised | apps/desktop/src/main/agent-monitor-hooks-core.ts:106-145 | An entry made for a handler file is recognised by that name, and by another name exactly when the executable ends with it or the directory mentions it |
| HookInstaller.HandlersAreToldApart | apps/desktop/src/main/agent-monitor-hooks-core.ts:70-99 | The Claude and Codex entries are recognised by their own predicate, and by the other one only in those cases |
| AgentMonitorHooks.ClaudeLaws | apps/desktop/src/main/agent-monitor-hooks.ts:119-147 | For the Claude Code hooks, wherever handler and executable are: a second install changes nothing and only repairs, foreign entries survive install and uninstall in order, and an uninstall undoes an install if and only if no null stands where a list is expected |
| AgentMonitorHooks.CodexLaws | apps/desktop/src/main/agent-monitor-hooks.ts:153-177 | The same for the Codex hooks |
| AgentMonitorHooks.ClaudeEntries | apps/desktop/src/main/agent-monitor-hooks.ts:119-147 | The eight events of the Claude Code hooks, the command made for each, and which match every tool |
| AgentMonitorHooks.CodexEntries | apps/desktop/src/main/agent-monitor-hooks.ts:153-177 | The five events of the Codex hooks, the command made for each, and their matchers |
| AgentMonitorHooks.OwnEntriesAreRecognised | apps/desktop/src/main/agent-monitor-hooks-core.ts:101-145 | Each installer recognises every entry it makes, for every event and matcher |
| AgentMonitorHooks.OtherEntriesAreForeign | apps/desktop/src/main/agent-monitor-hooks-core.ts:70-145 | An installer takes the entries of the other one for its own if and only if the executable or the directory mentions its handler file |
| HookInstaller.InstallTwice | apps/desktop/src/main/agent-monitor-hooks-core.ts:188-210 | Installing twice is installing once |
| HookInstaller.UninstallUndoesInstallIff | apps/desktop/src/main/agent-monitor-hooks-core.ts:224-259 | Uninstalling after installing equals uninstalling alone if and only if hooks is not null and no event to install holds null |
| HookInstaller.ForeignEntriesSurvive | apps/desktop/src/main/agent-monitor-hooks-core.ts:188-259 | Under every event the foreign entries survive both operations, in order |
| HookInstaller.SecondInstallRepairs | apps/desktop/src/main/agent-monitor-hooks-core.ts:195-208 | A second install only repairs |
| HookInstaller.InstallKeepsPlaces | apps/desktop/src/main/agent-monitor-hooks-core.ts:188-210 | The entry takes the place of the first of ours or goes to the end; every other entry stays where it is |
| HookInstaller.SetKeyKeepsPlaces | apps/desktop/src/main/agent-monitor-hooks-core.ts:188-210 | An event that is there keeps its place among the properties, a new one goes to the end |
| HookInstaller.SettingsFile.ApplyHookInstall | apps/desktop/src/main/agent-monitor-hooks-core.ts:188-210 | Fails without writing when an event to install holds something that is no list; otherwise the file holds the installed settings, with the right counts |
| HookInstaller.SettingsFile.ApplyHookUninstall | apps/desktop/src/main/agent-monitor-hooks-core.ts:224-259 | In place, list by list: the file holds the uninstalled settings and the count is the number of our entries |
| HookInstaller.SettingsFile.UninstallKey | apps/desktop/src/main/agent-monitor-hooks-core.ts:236-254 | One property: its list is filtered, or the property deleted |

## Left out

- UI, tray, windows, IPC wiring, socket.io transport, HTTP clients and git work: calls outward; their results are nondeterministic step parameters.
- Cryptography, key material and hashing: opaque functions or values; safeStorage, electron-store and files are plain state.
- The executor's dispose, queue statistics and logging: the end of a run and output without effect on the state.
- A callback of the executor (sending an event or acknowledgement) that throws or calls back into it: not modelled; callbacks only record what was sent.
- CloudCommandExecutor.CloudCommandExecutor.ConsumeStreamResponse: runs without interruption, with one completion time for the whole stream; interleaving between reads is covered by `StreamHistory` and `CompletedReads` on the steps.
- CloudCommandExecutor.CloudCommandExecutor.SortByCompletion: `completedAt` is always set for terminal commands here, so the fallback for a missing one is not needed.
- ExecutorReplay.NetStepKeepsInv: assumes that an acknowledgement belongs to the command its id names now; `LateAckCompletesIff` and `LateAckKeepsInvIff` say when one that does not matters.
- The payload of events beyond the fields that decide whether they are terminal; upper-casing of methods is ASCII only.
- PerfBytes.WatchBytes: is stated for reads that end between characters; for other reads the decoded text is not that of the file (`PiecesDecodeIff`). Bytes that are not UTF-8 to begin with are not modelled.
- PerfTelemetry.PerfReader.Tick: the reader's offsets count characters of the decoded file, not bytes; the emitter is assumed not to throw; a throwing tick would leave its mark behind and repeat the chunk.
- Orphaned tool-call sentinels, telemetry payload fields and redaction patterns: fields and patterns without properties of their own. `TextDecoder` dropping a leading byte-order mark is not modelled.
- Session sync: deleted sessions and an empty load result, the relay and feature-disabled gating of the timer, and timestamps that are empty strings; timestamps are modelled as integers in the order of the source's strings.
- SessionSyncRuns.NoUpdateLost: is stated for clean runs; `StepLosesNothingIff` and `RunLosesNothingIff` say for every run when an update is lost.
- A chunk of a split session counts as sent when the answer to it is ignored because its cycle is stale, as in the source.
- SessionSyncService.AgentSessionSyncService.ResumeAfterSend: the generation check of the source is implied by the token check, because a reset always clears the token.
- SignatureVerifier.CommandSignatureVerifier.VerifyCommand: the comparison of payload and command, with the sorting of the query by `localeCompare`, is an opaque predicate.
- CanonicalStringify.StableStringifyIsFaithful: covers null, undefined, booleans, finite numbers by their printed text, strings, arrays and objects; sparse arrays, non-finite numbers, negative zero and values that JSON cannot hold are not modelled.
- CostMath.ComputeDrift: the drift percentage is a real number, where the source divides floating-point numbers.
- CostMath: the conversions from and to floating-point dollars.
- The job record's fields that no property depends on, and `lastObservedJsonlOffset` writes.
- FinalizationRuns.StepKeepsInvExactly: support bundle contents, additional-repository worktrees, warnings, telemetry and PoP revival do not change the fields in question; other code that writes the record is assumed to spread the current one.
- LoopFinalizers.LoopFinalizer.BeginDeadJobFinalization: one candidate of one loop; the map that `buildRecoveryCandidates` builds over all loops is represented by the step that captures the loop's record.
- `classifyLoopStatus` and the heartbeat scheduler: a finite case table and timers.
- `selectOrganizationCommandKeyForApproval` and the parsing of approval bodies: they would only add easy members.
- CommandKeyReconcilers.AuthorizedCommandKeyStore.Authorize: the file is modelled as the values it reads back as; a file edited to hold ill-formed entries reads as empty in the source and is not modelled.
- The order of stored keys under `localeCompare` when they are listed.
- HookInstaller.SettingsFile.ApplyHookInstall: a `hooks` property that is neither absent, null nor an object makes the source throw or misbehave and is not modelled; array entries and other non-record entries count as foreign.
- Small stores and counters (activity log, local sessions, approvals, onboarding queue): they would only add easy members.
