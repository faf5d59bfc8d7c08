# Verified model of the ingest SDK

The SDK buffers batches of Kafka rows, cuts them into numbered CSV files, stages the files on object
storage, announces them to the server in order, and after any crash finds out from storage, the server and
a small state file where to go on. This project models that machinery in Dafny and proves what it is for:
every row of the stream reaches the table exactly once and in order, whatever crashes, stalls, fences and
lost answers come in between.

## How the model is laid out

| files | what they hold |
|---|---|
| `Base`, `Values` | options, results, error kinds; cells, rows, batches |
| `Naming` | serial numbers, object names, identifiers |
| `Progress`, `Writer` | the progress slot and the writer state, each as functions and as a class whose methods are proved equal to them |
| `Pipeline`, `PipelineInvariant`, `PipelineSteps`, `PipelineStages`, `PipelineEffects`, `PipelineTheorems`, `PipelineVerdicts`, `PipelineProgress` | one writer session: producer, flusher, ticker, three stage tasks, fence |
| `Recovery`, `Sessions`, `SessionsInvariant`, `SessionsSteps`, `SessionsTheorems`, `OpeningTheorems`, `StateRecord`, `StateRace`, `Notify` | one stream over any number of sessions and processes, with the server as its environment |
| `Lease` | any number of processes and one lock object |
| `Dedup`, `DedupMeaning`, `Upsert` | last-wins deduplication and what it means for a table |
| `Calendar`, `CalendarText`, `Decimal`, `Csv`, `Render`, `Reader` | the text of a staged file, a reader of its dialect, and a reader of the texts of its cells by column type |
| `Loader`, `TableTheorems` | the load of staged bodies, and the table a stream leaves behind |

`Pipeline` and `Sessions` are step machines. A pipeline step is one region under a lock, one channel
operation, one update of the progress slot, one storage operation or one local decision of a task; a session
event is one such step of the live writer, one submission (answered or not), one job becoming terminal, one
phase of an open, the read or the write half of a state refresh, one delete of a collection pass, the end of
a session, the death of a process, the move of the stream to another process, or one submission of a process
it has moved away from. `Next` is total in both (a step whose guard is false changes
nothing), so a sequence of steps is a run, and a theorem about all sequences is a theorem about every
interleaving. The live writer inside `Sessions` is a `Pipeline.State`, so the session theorems rest on the
pipeline theorems and not on a simplified writer.

Where the steps come from: `DoAppendBegin` and `DoAppendPush` src/table.rs:563-628; `DoAppendTryLock` to
`DoAppendUnbuffer` src/table.rs:629-646, 951-957, 1069-1095; `DoSealCheck` to `DoSealSend`
src/table.rs:958-1000; `DoTickStart` src/table.rs:1007-1026; the flush steps, `DoAnotherLock` for every further
flush call among them, src/table.rs:653-657, 1099-1160; the stage steps src/table.rs:1621-1697 (render), 1767-1853 (gzip), 1873-1958 (put);
`CheckOrder` src/table.rs:2164-2208; `Fatal` src/table.rs:835-853. In `Sessions`, the opening is
src/client.rs:184-319, the submission gate src/notify.rs:380-386 with src/error.rs:3-11, the notify loop
src/notify.rs:297-378, the state refresh src/table.rs:1296-1367, collection src/table.rs:1390-1473. In
`Lease`, acquiring is src/client.rs:616-698, giving up a failed open src/client.rs:146-155, the heartbeat
src/table.rs:3119-3214, closing src/table.rs:760-813. In `Loader`, a load is what src/dedup.rs:3-6 says the
server does with a file, acting on the values a reader of the CSV dialect and of the column types finds in its body.

## Assumptions

- The sessions of one stream follow one another: no put of a session lands after its successor has listed the
  staging directory. Notify queues, state writes on their way and collection passes do outlive their session,
  in the same process or in one the stream has moved away from. A dropped writer holds its lease until its put has returned, but a fenced one whose
  put is still on its way can break this: the lease is not a mutex (`Lease.RenewalsCanAlternate`).
- The caller feeds contiguous offsets, starting where the opening told it to resume, or at 0 if nothing was
  ever staged. `append` itself only refuses to go backwards, and the pipeline theorems assume no more.
- Nobody else deletes staged objects or submits jobs for the group.
- The server keeps its documented contract: a submission at or below the watermark or with a known
  identifier changes nothing, jobs of a group become terminal in seq order, and the watermark is the largest
  terminal seq.
- A storage request has taken effect or not by the time its answer arrives or its process dies; the answer
  itself may be an error although the request took effect.

## Where the code and its comments differ

- src/table.rs:401-404 says an epoch roll persists state first. `seal` (src/table.rs:868-872) does not, so
  after a roll the objects on storage, not the recorded epoch, keep epochs rising; `SessionsTheorems.SerialsRise`
  and `ExactResume` hold without the recorded epoch being current. A roll that then fails to encode has already
  moved the epoch, with the buffer intact (`Writer.Seal`).
- src/table.rs:1321 says resume_offset only ever moves forward. Two refreshes in flight together (the ticker's
  and close()'s) can land in the wrong order and move it back: `StateRace.RecordCanMoveBack` is a run that does
  so. It moves back exactly if a lower and earlier refresh lands after a higher one
  (`StateRecord.OvertakingMovesBack`); as long as none does, and no refresh of an ended session is still on its
  way when the next one reads the record, it never moves back (`StateRecord.RecordNeverMovesBack`). Exact resume
  does not depend on it.
- src/dedup.rs:3-6 wants no duplicate key in a staged file. Text keys that differ only in NUL are distinct to
  the deduplication and equal once rendered (src/csv.rs:286-300), and milliseconds are multiplied into an i64
  that can overflow (src/csv.rs:232): `Loader.DeduplicatedFileRefused` is a deduplicated file the server
  refuses. `Loader.FileLoads` says exactly which files it refuses: those with two rows whose keys differ and
  denote the same.
- The length prefix of a key part is a u32 of a possibly longer length (src/dedup.rs:131-152). Text is told apart
  all the same, by the separator its bytes cannot contain; LargeBinary is not: `Dedup.KeysCollide` shows two keys
  that collide at 4 GiB, `Dedup.KeyIsInjective` that none do below.
- src/client.rs:287-288 wants the epoch anchor durable before the epoch is used, and src/table.rs:1300-1302 keeps
  a fenced writer from overwriting it. A state write that passed its last fence check before another process opened
  the stream can still land afterwards: `StateRace.EpochCanRepeat` is a run in which a later opening then
  gets an epoch already used or a lower one, and `OpeningTheorems.EpochsKeepRising` says that nothing else lets an epoch come back. Once a session
  has put an object the objects keep later epochs above it (`SessionsTheorems.ExactResume`).
- src/lock.rs:25-31 calls the lock a lease, not a mutex, and src/table.rs:751-758 says that a join that times out
  leaves a renewal in flight: `Lease.ComesBackExactly` says exactly when a process can get back on the lock.
- `serial_group` can be 86 bytes long (`Naming.IdentifierAlwaysFits`); the assertion at src/naming.rs:178-182
  allows 88.
- `parse_basename` accepts names that are not zero padded (`Naming.ParseIgnoresPadding`), so it inverts printing
  but printing does not invert it.

## Model

| member | source | states |
|---|---|---|
| Naming.EncodeSerialSeq | src/naming.rs:60-70 | succeeds exactly for epochs of 43 bits and seqs of 20, with a non-negative i64 |
| Naming.DecodeInvertsEncode | src/naming.rs:60-79 | decoding a serial number gives the pair it was made from |
| Naming.EncodeInvertsDecode | src/naming.rs:60-79 | every non-negative i64 is the code of exactly one encodable pair |
| Naming.PackOrder | src/naming.rs:60-79 | serial numbers are ordered as their (epoch, seq) pairs |
| Naming.ParseInvertsPrint | src/naming.rs:207-248 | parsing the name of any encodable file gives the file back |
| Naming.ParseIgnoresPadding | src/naming.rs:226-248 | an unpadded epoch parses to the same file, so printing does not invert parsing |
| Naming.OrdersAgree | src/naming.rs:60-79 | the order of serial numbers, of (epoch, seq) pairs and the lexicographic order of object keys coincide |
| Naming.KeysPrefixFree | src/naming.rs:150-219 | a staged key that is a prefix of another belongs to the same stream and the same file, up to the compression suffix |
| Naming.BasenamesPrefixFree | src/naming.rs:207-219 | the same of names within one directory |
| Naming.IdentifierIsGroupAndSerial | src/naming.rs:178-264 | two identifiers are equal if and only if serial group and serial number are |
| Naming.KeyReadsBack | src/naming.rs:150-219 | a reader of object keys gives the identity and the file back, each number in its place |
| Naming.IdentifierReadsBack | src/naming.rs:178-264 | a reader of groups and identifiers gives database, relation, writer and the file's epoch and seq back |
| Naming.IdentifierAlwaysFits | src/naming.rs:178-264 | a serial group has at most 86 bytes, an identifier at most 108, so the length check never fails |
| Progress.FirstTerminalEntryStays | src/table.rs:294-316 | the first terminal entry survives every later sequence of updates that name real files |
| Progress.ClearSparesTerminalEntry | src/table.rs:2099-2107 | clear_failure spares a terminal entry exactly because no file has the serial number i64::MIN |
| Progress.StoppedTellsEveryWaiter | src/table.rs:1114-1122 | once stopped, every waiter is told the same error, and never that it is a stall |
| Progress.ProgressSlot.DoPublishTerminal | src/table.rs:294-316 | writes only over a missing or non-terminal entry and says whether it wrote |
| Progress.ProgressSlot.DoReportFailure | src/table.rs:2043-2096 | keeps a terminal entry and one of an earlier file, otherwise records this failure |
| Progress.ProgressSlot.DoClearFailure | src/table.rs:2099-2107 | removes the entry of this file only |
| Progress.ProgressSlot.DoLand | src/table.rs:2030-2040 | publishes durability and drops a non-terminal entry at or before the file |
| Progress.ProgressSlot.DoPipelineGone | src/table.rs:1032-1057 | reports an earlier terminal cause if there is one, and leaves the slot stopped |
| Writer.UnbufferUndoesPush | src/table.rs:1069-1095 | taking back a refused batch restores buffer, counters, age and offset mark to what they were |
| Writer.SpanCovers | src/table.rs:874-875 | a file's offset range covers every batch in it and is attained at both ends |
| Writer.FindLast | src/table.rs:1075-1083 | the search from the back finds the last batch with the range, or none |
| Writer.OffsetSpan | src/table.rs:874-875 | the two folds compute least start and greatest end |
| Writer.WriterCell.DoAppend | src/table.rs:579-626 | refuses a rewind without touching the state, otherwise buffers the batch and moves the mark |
| Writer.WriterCell.DoUnbuffer | src/table.rs:1069-1095 | the locked removal, as the function of the old state that UnbufferUndoesPush is about |
| Writer.WriterCell.DoSeal | src/table.rs:864-924 | nothing to seal changes nothing; otherwise the whole buffer becomes one file under the next number |
| Writer.WriterCell.DoRecordDurable | src/table.rs:1240-1252 | the staged offset never falls and reaches the file's end |
| PipelineTheorems.StepKeepsInv | src/table.rs:557-1160 | every step of every task keeps the pipeline invariant |
| PipelineTheorems.RunKeepsInv | src/table.rs:557-1958 | every run from a fresh writer ends in the invariant |
| PipelineTheorems.NothingLost | src/table.rs:864-1026 | before a stop, durable files, then files in flight in channel order, then the buffer are the accepted batches, once and in order |
| PipelineTheorems.StorageIsPrefix | src/table.rs:1873-1958 | storage always holds a prefix of the sealed files, at most one beyond those published durable, and their numbers are dense |
| PipelineTheorems.AcceptedOnce | src/table.rs:579-628 | the batches of the sealed files, then the buffer, are the accepted batches, with offsets moving forward |
| PipelineTheorems.GoneStageIsAnnounced | src/table.rs:1032-1057 | if any stage has stopped, the slot holds a terminal entry, it is a fence or a permanent failure (never a gone pipeline or an order violation), and every call is refused |
| PipelineTheorems.GoneAlwaysHasACause | src/table.rs:1032-1057 | WriterClosed for a gone pipeline is never reported: whoever finds a stage gone is told the fence or the permanent failure that stopped it |
| PipelineTheorems.TripwireQuiet | src/table.rs:2164-2208 | check_order accepts every file that reaches the put stage |
| PipelineTheorems.TerminalEntryStays | src/table.rs:294-346 | the first terminal entry of a writer outlives every continuation of its run |
| PipelineTheorems.NoLostWakeUp | src/table.rs:1143-1160 | a waiting flush is already satisfied, or owed an error, or waits for a file a living pipeline still holds |
| PipelineTheorems.FlushOkIsHonest | src/table.rs:653-657 | flush returns Ok only when every batch accepted before the call is in a durable file, with a staged offset at or past its end |
| PipelineTheorems.FlushStallIsHonest | src/table.rs:1099-1160 | StagingStalled from flush means a file that is not durable, at or before the awaited one, has failed its stage the configured number of times in a row |
| PipelineTheorems.AppendStallIsHonest | src/table.rs:629-646 | the same of append |
| PipelineVerdicts.FlushIsToldOfStall | src/table.rs:1099-1160 | if a file on record stands at n failed attempts of its stage and a flush waits for it or a later one, the flush returns StagingStalled(n) exactly if n has reached the configured number |
| PipelineVerdicts.LockWaiterIsToldOfStall | src/table.rs:1099-1160 | the same of a flush that waits for the seal lock |
| PipelineVerdicts.AppendIsToldOfStall | src/table.rs:629-646 | the same of an append that waits, which then backs out with that error |
| PipelineVerdicts.SealerIsToldOfStall | src/table.rs:958-1000 | the same of whoever holds the seal lock and waits for room, which then lets go of it |
| PipelineVerdicts.FailedAttemptIsRecorded | src/table.rs:2043-2096 | a failed attempt puts its file on record with the new count, unless an earlier file or a terminal entry is there |
| PipelineVerdicts.EntryLeavesOnly | src/table.rs:2030-2107 | an entry stays on record until its own file fails again, passes or lands, an earlier file fails, a later one lands, or the writer stops |
| PipelineVerdicts.FatalIsExact | src/table.rs:835-853 | a new call gets the fence first, then the violated contract, then the permanent failure with its stage, and none exactly if there is none of these |
| PipelineVerdicts.PermanentFailureStays | src/table.rs:2011-2096 | an attempt that fails with Schema or UnsupportedType stops its stage and, as the first, stays on record with its stage |
| PipelineVerdicts.PermanentFailureIsTold | src/table.rs:320-346 | each waiting flush and append is then told RotationFailed with that stage and error |
| PipelineVerdicts.FenceStops | src/table.rs:1621-1697 | a stage of a fenced writer stops before its next attempt, and the fence stays on record unless something stopped the writer earlier |
| PipelineVerdicts.FenceIsTold | src/table.rs:320-346 | each waiting flush and append is then told WriterFenced |
| PipelineVerdicts.FencedWriterStops | src/table.rs:835-853 | however long the tasks go on after a fence, at most one more put lands, one announcement is made, one file is cut and one batch accepted, each only if it was under way |
| PipelineVerdicts.NoStageStops | src/table.rs:2011-2013 | without a fence and without a Schema or UnsupportedType failure no stage ever stops |
| PipelineProgress.PipelineDrains | src/table.rs:1621-1958 | from every state of a writer without a fence or permanent failure, whatever failed before, there are steps of the stages alone that put, record and announce every sealed file |
| PipelineProgress.FlushCanReturn | src/table.rs:1143-1160 | a waiting flush then returns Ok with the staged offset |
| PipelineProgress.SealerWaitsOnlyWhenFull | src/table.rs:958-1000 | a sealer goes on if and only if fewer than max(1, rotation_queue_depth) files are in the channel |
| PipelineProgress.AppendChecks | src/table.rs:563-578 | append refuses exactly if the writer is stopped or the range is no range of nonnegative i64 |
| PipelineProgress.AppendTakes | src/table.rs:579-628 | a batch is taken if and only if it starts after the last batch ever taken; otherwise nothing changes |
| PipelineProgress.OrderIsExact | src/table.rs:2164-2208 | the order check accepts exactly the next number of the epoch or the first of a later one |
| PipelineProgress.CountersAreSums | src/table.rs:579-626 | the byte and row counters the rotation threshold looks at are those of the buffered batches after any run |
| PipelineProgress.FilesAreAsConfigured | src/table.rs:864-924 | every file ever cut is compressed exactly if so configured |
| PipelineTheorems.RefusedAppendLeavesNoTrace | src/table.rs:629-646 | an append that backs out is as if never made, or, if another sealer took its batch, the batch is in a file and no stall is reported |
| PipelineTheorems.BackpressureBound | src/table.rs:470-470 | at most max(1, rotation_queue_depth) + 5 sealed files are not yet durable |
| PipelineEffects.StepEffects | src/table.rs:557-1958 | a step adds at most one object and at most one announcement, removes nothing from storage, and changes the accepted batches only at their end |
| Recovery.SortByKey | src/recovery.rs:44-44 | the sorted listing is a permutation of the listing |
| Recovery.SortedOrderUnique | src/recovery.rs:44-44 | a listing without duplicate keys has one sorted order, whatever order it came in |
| Recovery.PlanRecovery | src/recovery.rs:43-76 | the plan is that of the sorted listing: one past the largest end, the files above the watermark in order, the greatest pair |
| Recovery.PickBackfill | src/recovery.rs:64-70 | the loop picks the files above the watermark, or fails if some name cannot be encoded |
| Recovery.LargestEnd | src/recovery.rs:61-61 | the fold finds one past the largest end offset |
| Recovery.ResumeIsLast | src/recovery.rs:61-61 | in a well-formed listing the resume offset is one past the newest file |
| Recovery.AboveIsSuffix | src/recovery.rs:64-70 | in a well-formed listing the backfill is a suffix, cut exactly at the watermark |
| Recovery.PlanIgnoresConsumedPrefix | src/recovery.rs:43-76 | consumed files, short of the newest, do not influence the plan |
| Recovery.EpochExceedsAnchors | src/client.rs:263-285 | the session epoch is above listing, watermark and recorded epoch, whatever the clock says |
| Recovery.EpochIsLeast | src/recovery.rs:80-85 | it is the least such epoch not before the clock: the clock's, or one above an epoch in use |
| Recovery.OpeningSucceeds | src/client.rs:263-300 | an opening succeeds if and only if every listed file encodes, the clock fits 43 bits and no epoch in use is the last one; state.json then gets the chosen epoch |
| Recovery.ResumeIsOnePastKnown | src/client.rs:250-261 | for any listing and any record the opening resumes one past the largest offset either of them knows, or nowhere if they know none |
| OpeningTheorems.OpeningGoesThrough | src/client.rs:263-300 | after any history an opening goes through if and only if the clock fits 43 bits and neither newest object, watermark nor state.json holds the last epoch |
| OpeningTheorems.BackfillIsExact | src/recovery.rs:64-70 | after any history, told the watermark, it enqueues exactly the objects that are not terminal, in order |
| OpeningTheorems.EpochsKeepRising | src/client.rs:287-300 | the chosen epoch is recorded before it is used, and no later opening of any continuation chooses it or a lower one, even with storage empty and no watermark, if and only if no lower state write is still on its way |
| StateRace.EpochCanRepeat | src/table.rs:1296-1367 | a run of two processes with such a write, after which an opening gets an epoch already chosen or a lower one |
| Recovery.PickAnchor | src/client.rs:270-281 | the rebinding loop picks the greatest anchor |
| Recovery.OpenTable | src/client.rs:248-300 | the opening's decisions, taken in the source's order, are the specified ones |
| Recovery.GcPass | src/table.rs:1433-1465 | a pass deletes the targets oldest first and stops at the first failure |
| Recovery.TargetsArePrefix | src/table.rs:1433-1456 | targets are the oldest files, all consumed, never the newest, and leave the retention floor |
| Recovery.TargetsAreExact | src/table.rs:1433-1456 | every target is at or below the watermark and older than the retention age, and every such file but the newest is a target, up to the floor |
| Recovery.GcInvisible | src/table.rs:1433-1465 | after any pass, even one cut short, recovery plans the same for every later watermark |
| SessionsSteps.GateVerdict | src/notify.rs:380-386 | the gate swallows a request exactly if the server owns its file already; it takes the next one and reports no violation |
| SessionsSteps.NextJobIsStored | src/table.rs:1433-1465 | the object of every job still to run is on storage |
| SessionsSteps.EpochIsNew | src/client.rs:263-285 | the chosen epoch is above the epoch of every object ever put, including those deleted |
| SessionsSteps.ResumeIsExact | src/client.rs:250-261 | listing and lagging state file together give one past the last object ever put |
| SessionsSteps.BackfillStart | src/recovery.rs:64-70 | what backfill leaves out is terminal |
| SessionsSteps.DeleteIsFirst | src/table.rs:1457-1465 | a delete of any of several collection passes takes exactly the oldest object, or nothing if another pass was faster |
| SessionsSteps.KeepSubmitElsewhere | src/notify.rs:297-378 | a submission by a process the stream has moved away from keeps the invariant of the live session and of every other process |
| SessionsSteps.EventKeepsInv | src/client.rs:184-319 | every event of a stream keeps the session invariant |
| SessionsSteps.RunInv | src/notify.rs:297-378 | every run of a stream ends in the session invariant |
| SessionsTheorems.ExactlyOnce | src/error.rs:3-11 | with any number of living notify queues, accepted files are a prefix of the objects ever put; each is loaded at most once and in order; without operator skips the loaded rows are exactly a prefix of the log |
| SessionsTheorems.GateIsExact | src/notify.rs:297-378 | the watermark covers exactly the terminal objects, a request at the head of the queue of any living process is swallowed exactly if its file is owned already, and the contract is never violated |
| SessionsTheorems.NothingNeededIsCollected | src/table.rs:1433-1468 | only objects of terminal jobs are ever deleted, the newest stays, and every job finds its object |
| SessionsTheorems.ExactResume | src/client.rs:250-300 | after any history an opening resumes one past the last object ever put, all rows before that are in objects, and its epoch is new |
| SessionsTheorems.SerialsRise | src/table.rs:868-892 | serial numbers of all objects ever put strictly rise and their offsets follow on without a gap, across sessions, clocks, rolls and collection |
| SessionsTheorems.StateNeverLeads | src/table.rs:1296-1367 | the recorded resume offset never leads what the server accepted |
| SessionsTheorems.NothingStranded | src/recovery.rs:5-7 | from any live state, once the queue gets answers and the server works its jobs off, every object found at open or announced since is terminal and loaded |
| SessionsTheorems.StagedIsSafe | src/recovery.rs:21-28 | the staged offset of a live writer is the end of an object, and every row of the log up to it is in objects, so a later opening resumes behind it |
| StateRecord.OvertakingMovesBack | src/table.rs:1296-1367 | of two state writes in flight the later landing first: the record moves back if and only if the earlier one is lower |
| StateRecord.RecordNeverMovesBack | src/table.rs:1296-1367 | with any number of writes in flight that land in order, and none of an ended session left when the next one reads the record, it never decreases over any number of sessions, processes and crashes |
| StateRecord.RecordCatchesUp | src/table.rs:1296-1367 | a refresh that nothing gets in the way of records the confirmed offset, with the session's epoch, exactly if it is ahead of what the writer recorded, and otherwise writes nothing before a heartbeat is due |
| StateRace.RecordCanMoveBack | src/table.rs:1296-1367 | a run of one session with one row reaches two writes whose wrong order moves the record back |
| Notify.Notifier.Enqueue | src/notify.rs:245-258 | appends to this writer's queue and touches no other writer |
| Notify.Notifier.NotifyLoop | src/notify.rs:297-378 | the nested retry loops do to this writer's queue and board what the answers one by one do, and nothing to others |
| Notify.Notifier.Settle | src/notify.rs:318-371 | one heard answer: the request leaves the queue, and the board shows acceptance or the first violation |
| Notify.Notifier.ClearFatal | src/notify.rs:279-281 | a reopen forgets the recorded violation of this writer only |
| Notify.FirstInFirstOut | src/notify.rs:303-376 | each heard answer takes exactly the oldest request, a lost answer none |
| Notify.ConfirmedIsNewest | src/notify.rs:329-344 | for any queue, repeated requests and violations included, the board shows the largest serial number among the earlier entry and all requests answered with success, with the end offset of that request |
| Notify.ConfirmedIsLast | src/notify.rs:329-344 | with a rising queue and no violation that is the last request that left the queue |
| Notify.FirstViolationStays | src/notify.rs:359-366 | the first violation stays on record |
| Notify.ViolationIsRecorded | src/notify.rs:359-366 | on record is the violation that was there before, else the first the loop has heard, else none |
| Lease.StepKeepsInv | src/table.rs:3119-3214 | every step of every process keeps the lease invariant |
| Lease.HolderIsNotFenced | src/lock.rs:11-31 | whoever is on the lock object has not been fenced as preempted or deleted, under every interleaving |
| Lease.LiveLeaseIsRespected | src/client.rs:616-665 | while no look finds the lock older than the lease period or its holder dead, and nobody else has a claim, write or delete under way, the holder stays on the lock and nobody else starts to claim, in every interleaving |
| Lease.LookerIsRefused | src/client.rs:616-665 | within the lease period a look waits or, giving up, is refused for good, and the lock stays as it is |
| Lease.LookerClaims | src/client.rs:616-665 | with the lock absent, older than the lease period or its holder dead the look goes on to claim |
| Lease.ActsOnlyOnOwnLease | src/lock.rs:17-27 | nobody opens, renews, gives up or deletes without having just read its own lease |
| Lease.SilenceFencesForGood | src/table.rs:3119-3214 | a heartbeat that verified or renewed nothing for a whole lease period fences its writer for good |
| Lease.ReleaseEnds | src/table.rs:786-813 | a release fails at most three times, then close() gives up on it |
| Lease.NeverWrittenBack | src/table.rs:720-813 | after a joined release, or after being fenced by another's lease, a process never gets back on the lock object |
| Lease.ComesBackExactly | src/table.rs:3119-3214 | a process not on the lock object can get there again if and only if it has not claimed yet or has a renewal on its way |
| Lease.ReleasedComesBack | src/table.rs:751-775 | a released lease is written back by some continuation if and only if a renewal is on its way, which a joined release excludes |
| Lease.LateRenewalWritesBack | src/table.rs:760-775 | when the join timed out, a renewal in flight writes the released lease back |
| Lease.ClosedWhileRenewing | src/table.rs:3146-3176 | a run of one process reaches that state |
| Lease.OneReaderRenews | src/client.rs:671-677 | of two open writers that check the lock while it keeps its holder at most one goes on to renew, and the other is fenced |
| Lease.TwoRenewing | src/lock.rs:25-31 | a run of two processes, one taking over the stale lease of one paused in its renewal, reaches two renewals that have both read |
| Lease.RenewalsCanAlternate | src/lock.rs:25-31 | these can alternate any number of times without either writer being fenced |
| Lease.ReleaseHitsOwn | src/table.rs:786-801 | while only others act between the read and the delete of a release, the delete hits its own lease if and only if nobody touched the lock object |
| Lease.DeletingAgainstClaim | src/table.rs:786-801 | a run of two processes reaches a release and a claim that have both read the lock |
| Lease.ReleaseCanHitSuccessor | src/table.rs:786-801 | there the release deletes the claim, and the claimant's open fails |
| Dedup.BuildKey | src/dedup.rs:45-68 | the key loop yields the concatenation of the tagged parts, or the first unusable part's error |
| Dedup.KeyIsInjective | src/dedup.rs:45-162 | rows whose LargeBinary parts are under 4 GiB, their texts as long as they like, have equal key bytes if and only if they have equal key cells |
| Dedup.KeyExists | src/dedup.rs:91-162 | a row has a key exactly if no key cell is a non-NULL float |
| Dedup.KeysCollide | src/dedup.rs:146-150 | at 4 GiB two different keys of two LargeBinary columns have the same bytes |
| Dedup.DedupLastWins | src/dedup.rs:23-41 | per batch, in ascending order, exactly the rows with no later row of the same key; an error exactly if some row has no key |
| DedupMeaning.DedupIsLastWins | src/dedup.rs:23-41 | the rows kept over all batches are the last row of each key in file order |
| Upsert.LastWinsSameTable | src/dedup.rs:16-22 | deduplicating a file does not change what it does to any table |
| Upsert.LastWinsDistinct | src/dedup.rs:16-22 | among deduplicated rows no key occurs twice, keys being what the rows hold, cells or texts |
| Upsert.CutsDoNotMatter | src/dedup.rs:3-6 | for every cut of rows of cells or of texts into files, deduplicating and loading in order gives the table of all rows applied in order |
| Upsert.ReplayIsHarmless | src/dedup.rs:3-6 | at that level, replaying any loaded files and then continuing gives the same table |
| Loader.RenderedKeysAreUnique | src/table.rs:1729-1764 | the rows the file keeps have pairwise different keys in its text if and only if no two rows of its batches have different keys that denote the same |
| Loader.BodyRows | src/table.rs:1729-1764 | a body reads as the header and the values of its rows, in order |
| Loader.FileLoads | src/dedup.rs:3-6 | the load of a rendered body is refused exactly if two rows of its batches clash so, and otherwise applies the values of all rows of the batches in order |
| Loader.BodiesLoad | src/dedup.rs:3-6 | for every cut of the rows into files, loading the rendered bodies in order applies the values of all rows in order, and fails exactly if some file has such a clash |
| Loader.BodiesReplay | src/dedup.rs:3-6 | loading any of the bodies again and going on gives the same table |
| Loader.ExactKeysDoNotClash | src/csv.rs:165-262 | key text without NUL and milliseconds in range never clash |
| Loader.DeduplicatedFileRefused | src/dedup.rs:3-6 | a body rendered from two deduplicated rows that the server refuses |
| Loader.InsertedFilesReadBack | src/table.rs:1740-1743 | without a key the bodies read back as the values of all rows of all files, in order |
| TableTheorems.TableIsLogPrefix | src/table.rs:1729-1764 | after any run without skips, loading the bodies of the loaded files gives the values of the log up to an offset applied row by row, last write wins, or is refused exactly if two rows of one file clash |
| TableTheorems.VerbatimTableIsLog | src/table.rs:1729-1764 | for a log without floats, milliseconds and NUL the table is that prefix of the log itself |
| TableTheorems.ExactLogLoads | src/csv.rs:165-262 | with exact key text in the log no file of any run is refused |
| TableTheorems.InsertedRowsAreLogPrefix | src/table.rs:1729-1764 | in insert-only mode the bodies of the loaded files read back as exactly the values of the first rows of the log |
| Calendar.DayNumberCounts | src/csv.rs:347-362 | the day number used as reference is 0 at 1970-01-01 and grows by one per calendar day |
| Calendar.CivilIsExact | src/csv.rs:348-362 | every day count gives a valid proleptic Gregorian date with that day number |
| Calendar.DatesDiffer | src/csv.rs:348-362 | different days have different dates |
| CalendarText.WriteDate32 | src/csv.rs:348-362 | the method appends the text of that date |
| CalendarText.DateRoundTrip | src/csv.rs:348-362 | the text of a date reads back as the date, years before 0 and after 9999 included |
| CalendarText.DateWidths | src/csv.rs:348-362 | in years 0 to 9999 the text is ten characters: four digits, two and two between dashes |
| CalendarText.DaysFit | src/csv.rs:366-368 | the day count of every i64 of microseconds fits the i32 it is cast to |
| CalendarText.TrimmedValue | src/csv.rs:373-380 | the trimmed fraction has the same value and no trailing zero |
| CalendarText.WriteFraction | src/csv.rs:373-380 | the trimming loop writes that fraction |
| CalendarText.WriteTimestampMicros | src/csv.rs:365-384 | the method appends the text of the timestamp |
| CalendarText.TimestampRoundTrip | src/csv.rs:365-384 | every timestamp text reads back to its microseconds, negative ones included |
| CalendarText.ClockWidths | src/csv.rs:365-384 | hours, minutes and seconds take two digits each, and a fraction follows exactly if there is one |
| Decimal.FillDigits | src/csv.rs:317-325 | the digit loop fills the buffer from its end and never passes its beginning |
| Decimal.DigitBuffer | src/csv.rs:317-326 | 40 bytes hold the digits of every i128, which are at most 39 |
| Decimal.WriteDecimal128 | src/csv.rs:304-345 | the method appends the specified text for every i128 and scale above -128 |
| Decimal.DecimalRoundTrip | src/csv.rs:304-345 | the text reads back as raw over ten to the scale, with exactly scale fraction digits when scale is positive |
| Csv.QuoteInto | src/csv.rs:286-300 | fast and slow path write the same quoted text |
| Csv.WriteHexBytea | src/csv.rs:275-282 | two hex digits per byte |
| Csv.ShownPlain | src/csv.rs:162-164 | no rendered number, date, decimal or hex text contains a quote or NUL, so it needs no quoting pass |
| Csv.WriteCell | src/csv.rs:165-262 | a NULL is a bare empty field, everything else its quoted text |
| Csv.Header | src/csv.rs:61-71 | the header line is the line of the quoted names |
| Csv.FormatRows | src/csv.rs:84-102 | the loops append one line per selected row, in the given order |
| Csv.CsvRoundTrip | src/csv.rs:1-16 | for every allowed delimiter a reader of the dialect recovers records, order, NULL against empty string, and every text without its NULs |
| Render.ChooseRows | src/table.rs:1739-1745 | with a key the last row of each key is kept, without one every row |
| Render.Render | src/table.rs:1729-1764 | the body is the header and the kept rows, with their count; it fails exactly if some row has no key |
| Render.BodyReadsBack | src/table.rs:1729-1764 | the loader reads back header and every kept row |
| Reader.CellReadsBack | src/csv.rs:165-262 | a reader per column type, defined without the writer, turns the text of every cell into the value it means: booleans, integers, decimals, dates, timestamps, hex bytes and text |
| Reader.RowReadsBack | src/csv.rs:165-262 | the record of a row reads as the values of the row, with NULL where it was |
| Render.ValueText | src/csv.rs:165-262 | for every key type two values render to one text exactly if they denote the same value |
| Render.KeyText | src/csv.rs:165-262 | the same of whole keys |
| Render.DistinctKeysCanCollide | src/csv.rs:229-300 | keys that differ only in NUL, and milliseconds 2^61 apart, render alike |

## Left out

- KeyIsInjective: the condition (LargeBinary parts under 4 GiB) is sufficient and tight, but not necessary for every schema: with no second part of variable length longer values still differ.
- FileLoads: asks the same of LargeBinary key parts; beyond it the deduplication can drop the row of another key.
- RecordNeverMovesBack: the order in which writes land is a condition on every landing; that it is necessary is shown for two writes of a live session (OvertakingMovesBack), not for every run.
- ShownPlain: that the text of a float contains neither quote nor NUL is a hypothesis, see the next line.
- Float cells: their text is the standard library's; the model takes it as a function whose results contain no quote and no NUL, and what the loader reads in it as another function.
- PipelineDrains: says that some continuation drains the pipeline, not that a fair scheduler does; the model has no fairness.
- Real time: ageing, staleness verdicts, expiry and backoff are nondeterministic; clocks are arbitrary numbers.
- Concurrent calls of append on one writer, which the code discourages: one at a time here, beside any number of flushes. Of those one is followed to its return; the others take the seal lock and cut files.
- The size threshold and its average row width: whether an append rotates is nondeterministic.
- gzip, the object store client, the SQL connection, JSON and Arrow buffers: put, list, read, write and submit are steps on values, and compression is the identity on content.
- The lag monitor, alarms, log texts, remedies and error wording; errors keep their kinds.
- Credential refresh, staging location parsing, option blobs, secret masking, configuration ranges and schema mapping.
- Objects with unrecognized names under the staging prefix, which the code reports and leaves alone.
- Arrow's integer overflow when an end offset is i64::MAX: `end + 1` is a mathematical integer here; in the code it overflows.
- Text is a sequence of Unicode scalar values; bytes appear where the code uses bytes (key encoding).
- Same-host detection of a dead lease holder is a nondeterministic verdict.
- The schema check of append and the wait for the writer's storage handles, which are single-branch facts.
