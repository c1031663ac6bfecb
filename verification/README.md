# hf-s3ream, verified

hf-s3ream copies an S3 bucket, or a prefix of one, to a Hugging Face bucket. A
planner lists the source once, cuts it into contiguous key ranges and starts one
copier job per range. A copier lists its window, reads large objects in parts
through a slot pool shared by all its files, uploads them in rotating sessions,
and commits each session's files in batches. At the end the destination is listed
and compared with the plan.

This project models those parts in Dafny and proves what they promise. Everything
that the copier does not control is left open: the order in which tasks run, the
answers of servers, failures at any point, how keys are spread over pages.

How the files fit together:

- Part pool and reader: `PartPool` (every atomic action of the share gate, the
  semaphore, the reader tasks and the consumers, as steps that interleave
  freely), `PartPoolSafety`, `PartPoolCounts`, `PartPoolOrder`,
  `PartPoolLiveness`, `PartPoolResults`, `PoolReader` (`acquire` and the drop of a
  slot as methods, with everything else running between their atomic actions),
  `Sizing`, `Ingest`, `MemoryBound`.
- Upload and commit pipeline: `Pipeline` (steps), `PipelineSafety`,
  `PipelineDriver`, `PipelineResults`, `PipelineRotation` (when sessions rotate),
  `PipelineProgress`, `UploadLoop` (the driver loop as methods), `Delivery` (the
  pipeline on top of the settlement of its batches).
- Planner: `Keys`, `Listing`, `RangePlan` (the listing half of the planner as a
  class), `RangePartition`, `CopyListing` (a copier's own listing loop), `Fleet`
  (planner against job server, as steps), `FleetSafety`, `FleetCaps`,
  `FleetResults`, `FleetPlanner` (the planner's methods, against a job server that
  may do anything it is allowed to, and that logs every request), `Stop` (a copier's
  watch on its planner), `FleetStop` (planner, copiers and their watches together).
- Settlement: `Settlement`.
- Destination check: `Locate`, `Verify`, `VerifyReport`, `VerifyResults`,
  `EndToEnd`, `Rerun`, `Destination`.
- All of the planner: `PlannerRun`, from the ranges to the exit.
- `Wrappers`, `Sequences` and `Text` are shared.

Two kinds of results meet in the classes: a method's `ensures` says what state it
leaves in terms of the specification functions, and the lemmas beside it say what
that is worth over whole runs. What a specification function means is stated apart
from it as well, in numbers, sets and literals (`PartPool.ShareIs`,
`Settlement.VerdictIsExact`, `Fleet.RoomIff`, `Keys.KeptIff`, and so on). For the two concurrent protocols every field update
of a method is shown to be a step of the step system (`Valid()` is "reachable": there
is a schedule from the start to this state), so the lemmas about all schedules hold
in every state a method passes. What a method did on the way is stated over the
steps taken and the requests logged, not over what it says of itself. Every lemma
turns automatic induction off; the bodies
are the proofs.

Assumptions about the outside world: S3 lists keys in strictly ascending byte
order, and a listing with `start-after` holds the keys above it; a ranged GET that
succeeds returns exactly its range; a terminal job stage never changes, and a poll
that reports a terminal stage reports the actual one (a poll that reports a live
stage may be late). A start is a request and an answer: the answer may never come,
and then the server has made the job, makes it later, or never does; it makes at most
one job of it, so a request that is sent again by itself (refused connections, 429,
5xx) had made none. A key is a sequence of bytes, one character each. A compiled set
of globs is any predicate on keys, the same one for planner, copier and check.

`EndToEnd.BothOutcomesExist` and `MemoryBound.SomeCopierRuns` give instances that meet
all assumptions of the check's exactness and of the memory bound: a source with every
file there and one with a file missing; a copier with a file in flight and a part in
memory, and one that reads with single GETs.

What the code does not do, with the exact condition proved:

- Two kept keys share a destination path exactly when they are `p` and `p/p` under
  a prefix `p` without a trailing slash; the path is read back as `p`
  (`Keys.SourceKeyInverts`, `Keys.TargetsCollideOnlyDoubled`,
  `Keys.DoubledKeyIsLost`). The comment on `source_key` calls it the inverse
  without that exception.
- `batch()` documents that `Ok(n)` means that the server's reports covered every
  op. That is so exactly when the first response is not a 2xx with an unreadable
  body (`Settlement.Batch`, `Settlement.UnreadableSuccessIsTrusted`;
  `Delivery.LandedMeansConfirmed` carries it through the pipeline).
- A deleted job counts as neither failed nor canceled: without the check a planner
  exits Ok over a deleted range (`FleetResults.DeletedRangeExitsOk`);
  `FleetResults.VerdictIsExact` has the exact condition.
- Pass 1 of the check counts. Over a frozen source it lets a range through exactly
  when the unplanned files listed there are as many as the missing ones and have
  just the bytes that the planned ones lack (`VerifyResults.SuspectIff`), so a range
  with a gap escapes exactly then (`VerifyResults.GapEscapesIff`,
  `VerifyResults.MissingAndUnplannedCancel`); with nothing unplanned and nothing
  larger it is exact (`VerifyResults.UnsuspectedIsWhole`).
- `max_inflight` is documented as a cap on active copiers (src/sync.rs:534), with no
  exception. It holds while the planner lists; a restart does not wait for a slot
  (src/sync.rs:902-927), so two jobs can run under a cap of one
  (`FleetCaps.CapsBreakWhileMonitoring`). A run stays within both caps, at every
  step, exactly when no restart of a copier comes to count as running while a cap
  blocks it (`FleetCaps.CapsHoldIff`), and the same for the jobs that really run
  (`FleetCaps.LiveCapsHoldIff`).
- A comment says that a planner that fails leaves no copier behind (src/sync.rs:1062).
  The running jobs that its cancels do not address are exactly the one of a start that
  was in flight, if there is one (`FleetSafety.StopMissesOnlyTheFlight`,
  `FleetStop.AFlightIsMissed`); it ends by its own watch (`FleetStop`).
- The printed re-run command is read back as its range exactly when the command-line
  parser takes each bound and each glob for a value (`Rerun.ArgsAreTheRange`): quoting
  for the shell does not keep a key such as `--stop-at` from being taken for a flag.
- `files_pending_ack` ends at the number of skipped files
  (`PipelineResults.FinishedMeansCommitted`).

`dafny verify dfyconfig.toml` checks the project (Dafny 4.11).

## Model

| member | source | states |
|---|---|---|
| PartPoolLiveness.SomeStepIsEnabled | src/sync.rs:1738-1791 | Files sharing the pool cannot block each other, however small it is: in every state of the invariant, as long as one file is not done, a step that is not a fault is enabled |
| PartPoolLiveness.StepLowers | src/sync.rs:1747-1791 | Every step of any file, a fault or not, lowers a lexicographic measure of what is left to do |
| PartPoolLiveness.EveryScheduleEnds | src/sync.rs:1747-1791 | No interleaving of the reading files goes on for ever |
| PartPoolLiveness.NoSlotIsLost | src/sync.rs:1745-1746 | A schedule that can only fail or has nothing left has ended every file, and then every slot is free and no reader is registered |
| PartPoolResults.EveryObjectIsDelivered | src/sync.rs:1738-1742 | A schedule without faults that has run out of steps has handed every file its whole object |
| PartPoolSafety.StepKeeps | src/memory.rs:136-195 | Every atomic action keeps the pool's invariant: permits plus slots out are the pool size, `held` is the slots of the file plus those being freed, the queue is the files past the gate, no wake-up is lost |
| PartPoolResults.NoLostWakeUp | src/memory.rs:136-152 | In every interleaving of registering, checking, parking, freeing, lowering and notifying, a parked file has a wake-up ready or about to be sent, or it holds a slot and (`held` + 1) × `readers` is more than the pool |
| PartPoolResults.SlotsAreBounded | src/memory.rs:312-324 | Slots out never exceed the pool, and one file never holds more than `parts_per_file` of them: 2c + 2 up to a part concurrency c of 32, c + 34 above |
| PartPoolResults.SharesAreKept | src/memory.rs:59-63 | With a fixed set of reading files, no schedule takes a file that holds more than one slot, with the one it is in line for, to where its slots times `readers` exceed the pool |
| PartPoolResults.BelowShareFindsASlot | src/memory.rs:114-117 | When the reading files are no more than the slots and hold all that are in use, each within its share, there is a free slot for everyone in line, and for each more that the file may take: as many as, times `readers`, fit the pool |
| PartPoolResults.ReaderIsNeverIdle | src/sync.rs:1747-1791 | A reader that cannot go on by itself holds a part that a full channel (as many parts as it may have GETs, at most 32) has no room for; or waits for its slot; or has all the GETs it may have, or all that are left, started and the oldest not answered |
| PartPool.ShareIs | src/memory.rs:114-116 | n slots are within the fair share exactly when n is at most one, or n times the reading files (one, if there are none) fit the pool |
| PartPoolOrder.DeliveredIsAPrefix | src/sync.rs:1747-1791 | Under any order of GETs, errors, reader death or a dropped stream, what a consumer got is a prefix of the object; after a clean end it is the object |
| PoolReader.Pool.Acquire | src/memory.rs:136-166 | The acquire loop, with every other action of the copier in between: what the reader itself did is so many rounds of a check and a wake-up, then a check and the slot, which is the next part in order, counted in `held`; with no slot it is still parked with no wake-up ready, in the queue, or back at the loop's head, having looked `patience` times or gone round that often |
| PoolReader.Pool.BelowShare | src/memory.rs:145-147 | The file is let into the semaphore queue exactly when `held` as loaded is 0, or one more than it, times `readers` as loaded later (at least one), fits the pool; otherwise it parks |
| PoolReader.Pool.DropSlot | src/memory.rs:188-195 | Permit first, then `held`, then the notification, which reaches the file or is stored, with any steps of others in between |
| Sizing.FitIsOptimal | src/memory.rs:334-382 | With a limit, `parallel_files` is the largest of 1..=requested that the limit affords: 128 MiB for each, and the slots of one file at full concurrency, are at most 60% of it and leave 64 MiB per upload in flight and 1 GiB; if it affords none, it is 1 |
| Sizing.FitsIff | src/memory.rs:234-242 | `fits()` is true exactly when such a number of files exists |
| Sizing.PoolIsLargest | src/memory.rs:353-363 | The pool takes q slots, of those the files could hold, exactly when the limit affords the files' windows and q parts |
| Sizing.NoLimitKeepsTheRequest | src/memory.rs:351-352 | Without a limit the request stands and the pool has room for every part |
| Sizing.ElseOneFileRuns | src/memory.rs:364-366 | When nothing fits, one file runs, with at least one slot if it reads in parts, and each further one of its slots that the limit affords beside its window |
| Sizing.FitIsMonotone | src/memory.rs:334-382 | A higher limit never lowers `parallel_files` |
| Sizing.RequestIsReported | src/memory.rs:371-381 | The reported worst case of the request is that of a copier without a limit, and never below the one chosen; the reported unlimited pool is what the chosen files could hold |
| Sizing.WorstCaseIsBudgeted | src/memory.rs:305-310 | Files times 128 MiB plus slots times the part size, within the chosen settings, stay within the reported worst case, that within the budget: 60% of the limit, and clear of 64 MiB per upload in flight and 1 GiB; nothing has saturated |
| MemoryBound.MemoryStaysInBudget | src/memory.rs:371-381 | In every reachable state of pipeline and pool, with files read in parts or by single GETs, files in flight times the xorb window plus slots in use times the part size stay within the worst case and the budget |
| MemoryBound.SomeCopierRuns | src/memory.rs:334-382 | Copiers that meet all assumptions of the bound exist, at part concurrency 8 with a part in memory, and at 1 |
| Ingest.SplitRanges | src/sync.rs:2286-2296 | The ranges link from 0 to the size, none is empty, all but the last are one part long, and there are ceil(size / part) of them |
| Ingest.UploadStream | src/cas_uploader.rs:127-166 | A file is finished exactly when no chunk failed and the bytes ingested are as many as expected; then they are the chunks, in order |
| Ingest.OnlyWholeObjectsFinish | src/cas_uploader.rs:119-126 | Read through the pool, in any schedule, the right byte count means the right bytes |
| PipelineDriver.StepKeeps | src/sync.rs:1386-1535 | Every step of the driver, an upload or a commit keeps the pipeline's invariant |
| PipelineResults.OpsAreConserved | src/sync.rs:1616-1646 | At every step, ops counted in `files_done` (with one just pushed) are the confirmed ones, those in live sessions and those in pending commits |
| PipelineResults.NoOpIsLate | src/sync.rs:2028-2037 | An upload pushes its op into the session that chunked it, while that session is live: no commit has taken its ops, also after retries |
| PipelineResults.Shape | src/sync.rs:1415-1510 | Uploads at most `parallel`, commits at most 2, live sessions at most `parallel` + 1; only the current session is unsealed; a sealed one has an upload in flight; a session holds at most `commit_chunk` files and was below `commit_bytes` before its last |
| PipelineResults.FourAttempts | src/sync.rs:1849-1857 | An upload under way is at its first to fourth attempt; it is tried again exactly before the fourth, and gives up exactly after it |
| PipelineRotation.SessionsAreGreedy | src/sync.rs:1435-1449 | Over whole runs, in any order of events: each object goes to the session of the one before it, unless that has `commit_chunk` files or (with a threshold) `commit_bytes` bytes by then; then, and only then, to the next one |
| PipelineRotation.SealedSessionsAreFull | src/sync.rs:1435-1449 | In every reachable state a sealed session was given `commit_chunk` files, or `commit_bytes` bytes, unless it is the last one after the end of the listing; its counters are those of the files given to it |
| PipelineRotation.CommittedSessionsAreFull | src/sync.rs:1435-1449 | The same for the session of each commit |
| PipelineResults.SomeStepIsEnabled | src/sync.rs:1415-1527 | No run gets stuck before the driver finishes or aborts: a step that is not a fault is enabled |
| PipelineResults.RunsAreBounded | src/sync.rs:1410-1527 | Every run ends, after at most as many steps as the weight of its start |
| PipelineResults.FinishedMeansCommitted | src/sync.rs:424-429 | When the upload loop returns Ok no session is left, each object is one confirmed op or one skip, `committed` = `files_done`, and `files_pending_ack` is the number of skips |
| PipelineProgress.EveryObjectIsCommitted | src/sync.rs:1386-1535 | A run without faults never aborts, and when only faults could follow it has finished, with each object one confirmed op or one skip |
| UploadLoop.Loop.UploadConsumer | src/sync.rs:1386-1535 | The driver loop, whatever the order of events: it ends, and when it ends well the sessions are committed and every object is accounted for |
| UploadLoop.Loop.Pull | src/sync.rs:1435-1449 | The current session is sealed exactly when it was given `commit_chunk` files or, with a byte threshold, that many bytes: then it is committed first, if all its files are done, or the next session takes the object; else the object goes to it, and nothing is sealed |
| UploadLoop.Loop.OnUpload | src/sync.rs:1501-1520 | A joined upload counts for its session; the last one of a sealed session starts that session's commit, any other starts none; a failed upload ends the driver |
| UploadLoop.Loop.TakeSession | src/sync.rs:1585-1616 | The session leaves the map and exactly its ops go into the new commit |
| UploadLoop.Loop.SpawnCommitNow | src/sync.rs:1570-1589 | A commit starts at once, with the ops of its session, when at most one other is under way; with two it waits for one to end; never more than two |
| Delivery.LandedMeansConfirmed | src/sync.rs:1619-1628 | In every run and against any servers, an op counted as landed went in the batch that a named step of the run commits, which is all ops of its own session, and was in a readable report of that call that did not name it, unless the call's first answer was an unreadable 2xx; then some op of the batch was in none |
| Delivery.CountsAlwaysMatch | src/sync.rs:1638-1646 | The branch for a batch confirmed with another count than its own is never taken |
| Settlement.Batch | src/bucket_client.rs:638-679 | Against any server: Ok(n) means n = ops handed in, and each was in a readable report that did not name it if and only if the first answer is not an unreadable 2xx; at most three responses; each request carries what the last readable report named |
| Settlement.SettleIsJustified | src/bucket_client.rs:638-679 | The same from any point of a call on: the verdict as a function of the server is justified by the exchanges with it |
| Settlement.State.Observe | src/bucket_client.rs:253-354 | One response, in full: refused (no 2xx and no readable 422) ends the call with that status; an unreadable 2xx confirms all the first time, and later leaves all pending and spends the attempt; a report that does not add up is its own error; one that names nothing confirms; else just the named ops stay, with a pause of 2 and then 4 seconds, and the third attempt gives up |
| Settlement.VerdictIsExact | src/bucket_client.rs:638-679 | Against any server, exactly how a call ends: Ok when its last answer adds up and names nothing, or its only one is an unreadable 2xx; Err with an HTTP status exactly when its last answer is refused with it; StillFailing exactly after three answers that named ops or, on a re-send, were unreadable 2xx, with the ops that every report named; lost when a request has no answer |
| Settlement.FirstAnswerDecides | src/bucket_client.rs:253-354 | For every server, which first answers end a call and how; after any other one it goes on with just the ops named |
| Settlement.RetryOpsIff | src/bucket_client.rs:119-138 | The ops to re-send are the named ones in send order, exactly when every named path was sent; otherwise the error names the others |
| Settlement.SentAreStillNamed | src/bucket_client.rs:209-226 | Each request carries, in order, exactly the ops that every readable report before it named |
| Settlement.AccurateServerSettles | src/bucket_client.rs:253-369 | Against a server whose answers add up or, on a re-send, are unreadable 2xx, a call succeeds exactly when none of its ops is left open by all three, and otherwise names those that are |
| Settlement.UnreadableSuccessIsTrusted | src/bucket_client.rs:271-287 | The exception is real: an unreadable first 200 counts every op as confirmed |
| Keys.KeptIff | src/sync.rs:2328-2355 | A key is copied exactly when it is the prefix or below it, has no empty segment, and no glob excludes it; it counts as invalid exactly when it is there and has an empty segment |
| Keys.TargetIs | src/sync.rs:2356-2383 | A kept key goes to the destination prefix, a slash, and what follows the source prefix (the whole key, when that is the prefix itself) |
| Keys.SourceKeyInverts | src/verify.rs:237-253 | `source_key` gives back the key of every kept key's destination path, except exactly `p/p` |
| Keys.TargetsCollideOnlyDoubled | src/sync.rs:2356-2383 | Two kept keys go to one path exactly when they are p and p/p |
| Keys.DoubledKeyIsLost | src/verify.rs:237-253 | The exception, on concrete keys |
| Keys.SourceKeyNeedsPrefix | src/verify.rs:240-245 | A listed path is part of the destination exactly when it lies below its prefix |
| Listing.PageIs | src/sync.rs:212-243 | The objects of a page are its entries with a key, in order; a missing or negative size counts as 0 |
| Text.LessIff | src/sync.rs:223-223 | Keys are compared by their bytes: at the first difference the smaller byte, or the end, comes first |
| RangePlan.Planner.Add | src/sync.rs:655-667 | An object is folded into the current range, which is closed exactly when it is full |
| RangePlan.Planner.Cut | src/sync.rs:670-742 | The closed range starts where the last one ends and records its objects' count, bytes and tuning |
| RangePlan.Planner.Run | src/sync.rs:1078-1145 | For any pages, filter and limit: the planned objects are the kept ones up to the first that finds the limit reached, and the ranges cut exactly those |
| RangePartition.PlanIsContiguous | src/sync.rs:736-740 | The windows are contiguous, in key order, the first one open below |
| RangePartition.EveryKeyIsCovered | src/sync.rs:655-742 | Every kept key lies in exactly one window |
| RangePartition.EachKeyHasOneRange | src/sync.rs:655-742 | It is the window of the range that counted it |
| RangePartition.WindowsAreDisjoint | src/verify.rs:255-257 | No key at all lies in two windows |
| RangePartition.CopierListsItsSlice | src/sync.rs:199-245 | A copier's filtered windowed listing is the slice its range recorded: same objects, count and bytes |
| RangePartition.CopiersRebuildThePlan | src/sync.rs:199-339 | The copiers' listings, in range order, are the planned list |
| RangePartition.RangesAreBalanced | src/sync.rs:661-665 | A range has at most `range_keys` files, and less than `range_bytes` bytes before its last; every range but the last has just that many files or at least that many bytes; no limits mean one range |
| RangePartition.TuningIs | src/sync.rs:670-700 | A range whose objects are at least half of at most 16 MiB gets 128 files in parallel and high-performance uploads, any other 32 and at least 128 GETs per file; it is commit-heavy exactly when its objects average at most 4 MiB |
| RangePartition.PlanIsUnique | src/sync.rs:655-742 | The plan is a function of the kept objects: pages and skipped keys do not matter |
| CopyListing.PageKeys | src/sync.rs:211-245 | One page, filtered, up to the first key past the bound |
| CopyListing.List | src/sync.rs:199-339 | Of the kept keys of the window, up to where the listing stopped: those not at the destination are queued, each at its place, with their bytes in a 64-bit counter; the others are counted as skipped, with their bytes; none was queued with the limit reached; and it stopped early exactly before one to copy that found it reached |
| CopyListing.CopiedWindowIsExact | src/sync.rs:487-500 | The window a single-process copy reports holds just the objects it copied or found, with their count and bytes, also after a limit cut |
| FleetSafety.CapsHoldWhileListing | src/sync.rs:823-854 | While listing, at most max_inflight jobs really run (one, when that is 0), and at most two commit-heavy ones, for every behaviour of the job server, with a start in flight or not |
| FleetSafety.CapsBreakIff | src/sync.rs:902-927 | From within both caps a step leaves them exactly when it is the answer to a restart, of a job not seen to have ended at once, of a copier that a cap blocks |
| FleetCaps.CapsHoldIff | src/sync.rs:534-534 | A whole run stays within the caps exactly when it has no such answer |
| FleetCaps.LiveJobsWithinCaps | src/sync.rs:534-534 | A run from the start that sends no restart of a blocked copier, listing or monitoring, never has more jobs really running than either cap, the one in flight included |
| FleetCaps.LiveCapsHoldIff | src/sync.rs:534-534 | The jobs that really run stay within the caps exactly when no restart's job comes to run with as many running as may be |
| FleetCaps.CapsBreakWhileMonitoring | src/sync.rs:902-927 | The cap is not kept: two jobs run under a cap of one, in a reachable state |
| FleetSafety.OneJobPerRange | src/sync.rs:902-927 | A range has at most one running job, the one the planner follows or the one in flight |
| FleetSafety.AtMostThreeAttempts | src/sync.rs:593-593 | A range has at most three jobs, and has one once it is in the plan or its first start is in flight and made one |
| FleetSafety.EndedRangesStayEnded | src/sync.rs:609-618 | A canceled (completed, deleted) job stays its range's last one in every continuation; only failed jobs are replaced |
| FleetSafety.StopMissesOnlyTheFlight | src/sync.rs:856-879 | In every state after the planner's end, the jobs that still run and that it sent no cancel are exactly the one of the start in flight at the stop, if that runs |
| FleetStop.OnlyTheFlightIsMissed | src/stop.rs:7-16 | With the copiers' watches: after a stop in order at most that one job runs on uncalled, by the planner or by itself; after a death in any way each that does can still be told and then quits |
| FleetStop.NobodyQuitsEarly | src/stop.rs:12-13 | No copier cancels itself before its planner's job has really ended |
| FleetStop.TellingIsBounded | src/stop.rs:12-16 | Once the planner has ended, for whatever reason, copiers are told so at most once per job running then, and once more for a start in flight |
| FleetStop.NobodyOutlivesThePlanner | src/stop.rs:1-1 | When copiers have a link to the planner and none is left that could be told, each job that still runs has sent its own cancel; as long as one has not, its copier can be told |
| FleetStop.AFlightIsMissed | src/stop.rs:14-16 | The case the second path is for exists: a job that runs, that the planner sent no cancel |
| FleetResults.MonitoringIsBounded | src/sync.rs:929-950 | The monitoring sees jobs end and restarts them at most as often as its measure, five times per range |
| FleetResults.MonitorWaitsOnlyForJobs | src/sync.rs:932-950 | It is over, or can go on, or waits for a job that really runs, or for the answer to a start |
| FleetResults.VerdictIsExact | src/sync.rs:951-1021 | At the end every job has really ended, a failed one as the third of its range; the exit is Ok exactly when each completed or was deleted and the check, if any, is ok; else it says how many failed, or, with none, how many were canceled |
| FleetResults.DeletedRangeExitsOk | src/sync.rs:951-1021 | Ok over a deleted range is possible without the check |
| FleetPlanner.Planner.Refresh | src/sync.rs:776-820 | It sends one listing, then one poll for each running copier the listing does not show, in order and to no other; a copier shown has the stage shown, one asked about the stage answered, and without an answer nothing changes |
| FleetPlanner.Planner.WaitForSlot | src/sync.rs:829-854 | It sends only polls, so many refreshes, none when there is room; it returns free exactly when fewer than max_inflight copiers run (none, when that is 0) and, for a commit-heavy one, fewer than two of those; and blocked only after all `polls` refreshes |
| Fleet.RoomIff | src/sync.rs:829-836 | The planner's own counts block a copier exactly when there is no such room |
| FleetPlanner.Planner.Cut | src/sync.rs:717-731 | After the wait it sends one start, for the next range; the copier follows the job that was started, at its first attempt. Not started means that the start was not answered, which stops the planner with the start in flight, or still blocked after `polls` refreshes and no start sent |
| FleetPlanner.Planner.RespawnFailed | src/sync.rs:902-927 | One start for each failed copier with attempts left, in order, and each follows its new job; it ends early only at a start that fails, whose attempt is spent |
| FleetPlanner.Planner.Round | src/sync.rs:933-935 | One turn of the monitoring sends one refresh, then restarts of just what had failed by then |
| FleetPlanner.Planner.Monitor | src/sync.rs:932-1021 | The verdict over what really happened to every range; none only when a restart failed, or when copiers were pending after `polls` refreshes |
| FleetPlanner.Planner.CancelActive | src/sync.rs:856-879 | One cancel for each copier not seen to end, in order, and no other; every job that really runs, but one whose start was in flight, is among them, and the result counts the cancels accepted |
| PlannerRun.StartAll | src/sync.rs:717-742 | Copier k is started for range k with the range's own tuning, in order, until a signal, a failed start or no room |
| PlannerRun.CommitBudgetHolds | src/sync.rs:675-684 | In a fleet that runs a plan, the jobs the commit budget counts are exactly those whose ranges average at most 4 MiB per object, and while listing no more than two of them run |
| PlannerRun.Conclude | src/sync.rs:974-993 | The check runs only when it is wanted and no range failed or was canceled; over a source that did not change the exit is Ok exactly when each range completed or was deleted and each passes the check |
| PlannerRun.RunPlan | src/sync.rs:1060-1073 | The planner from ranges to exit: after a signal or a failed start every running job but one in flight got its cancel; by itself it exits Ok, with the check, an unchanged source and a clean destination, exactly when each range completed or was deleted and every planned object is at the destination with its size |
| Locate.FindIff | src/verify.rs:255-265 | The binary search returns i exactly when the key is in window i |
| Verify.Tally.Observe | src/verify.rs:287-309 | Counts and bytes per range, outside and foreign paths, after one more listed file |
| Verify.Tally.Suspects | src/verify.rs:311-316 | Exactly the ranges whose count or bytes differ, in order |
| Verify.CheckRange | src/verify.rs:360-413 | Listed again with the copier's filter, every planned object is sorted into present, missing or short |
| Verify.SplitRaced | src/verify.rs:415-449 | Keys gone from the source move to raced, in order and within the HEAD budget; unchecked ones stay missing |
| Verify.RangeDiff.Observe | src/verify.rs:339-347 | One object: missing, exact, or short with the size found |
| VerifyReport.Report.Add | src/verify.rs:92-106 | The report shows the totals with one more range: counts, failed ranges, and the first ten paths, no more; ok exactly when no range failed, exactly when nothing is missing or short |
| VerifyReport.Check | src/verify.rs:137-204 | Only suspects are looked at, in order, on one budget of HEADs, and the report shows just the totals of their second looks: missing, short, extra, raced, failed ranges and sample |
| VerifyReport.HeadsAreCounted | src/verify.rs:170-204 | One budget of 1000 HEADs: one is spent for each path found missing, as long as there are any, and each such path is reported once, as missing or as raced |
| VerifyReport.LookCounts | src/verify.rs:415-449 | In one range what is raced is gone from the source, and with HEADs for all its missing paths none that is gone is reported as missing |
| VerifyReport.LookSplits | src/verify.rs:415-449 | Missing and raced objects are together those found missing, each once |
| VerifyReport.FailedTells | src/verify.rs:170-204 | A suspect that is not reported holds all its planned objects but those gone from the source, and one that holds them all is not reported |
| VerifyResults.CountIs | src/verify.rs:287-309 | What the tally counts at a place is the number of files listed there |
| VerifyResults.TallyIgnoresOrder | src/verify.rs:255-257 | The tallies do not depend on the order of the destination listing |
| VerifyResults.SuspectIff | src/verify.rs:5-7 | Frozen source without p/p, any destination: a range is let through exactly when its strays are as many as its missing files and have just the bytes it lacks |
| VerifyResults.GapEscapesIff | src/verify.rs:5-7 | With no planned file at a wrong size, a gap escapes exactly when strays match the missing files in number and bytes |
| VerifyResults.WholeIsUnsuspected | src/verify.rs:311-316 | A range with every planned file in place is suspected exactly when it has a stray |
| VerifyResults.UnsuspectedIsWhole | src/verify.rs:5-7 | The same with nothing unplanned or larger: a range is suspected exactly when a planned file is missing or truncated |
| VerifyResults.MissingAndUnplannedCancel | src/verify.rs:5-7 | The documented blind spot, on concrete files |
| EndToEnd.PlanDescribesTheSource | src/sync.rs:976-990 | The planner's ranges, handed to the check, count what copiers list in them, and together the objects of the plan |
| EndToEnd.FailedIffGap | src/verify.rs:170-204 | Over a frozen source and any destination, a range is reported exactly when a planned file of it is missing or truncated and its strays do not make up for that |
| EndToEnd.FrozenLook | src/verify.rs:326-358 | Over a frozen source a suspect adds to the report just its missing files, those of another size, no raced key, and as extra files just its strays |
| EndToEnd.CheckFrozen | src/verify.rs:137-204 | The whole check, as a method, over a frozen source: it names exactly the ranges with a gap that strays do not make up for; over a clean destination it is ok exactly when every planned file of every range is there with its size |
| EndToEnd.AllThereIff | src/verify.rs:1-3 | Every range has its planned files exactly when every object of the plan is at the destination with its size |
| Rerun.CommandRoundTrip | src/verify.rs:497-507 | Any argument list, quoted and joined, is split by a POSIX shell into itself: what is left bare has no character that is special to the shell |
| Rerun.BareIff | src/verify.rs:498-502 | A value may stay bare exactly when it is not empty and has no special character: only then does the shell read it as the one word it is |
| Rerun.BareWhen | src/verify.rs:498-502 | A value is printed as it is exactly when it is not empty and has just letters, digits and -_./=:@%+, |
| Rerun.RerunIsFaithful | src/verify.rs:470-495 | The printed re-run command gives the shell exactly the arguments meant, and its destination reads back as this one |
| Rerun.ArgsAreTheRange | src/verify.rs:470-495 | Read as command-line arguments, the command's words are just the source, the destination, the range's own bounds, each glob and --skip-existing (and --no-sign-request, if that is on); exactly when the parser takes each bound and glob for a value |
| Destination.UriRoundTrip | src/main.rs:388-399 | `parse_dest` of the printed URI gives the destination back exactly when it is well formed |
| Destination.AcceptedIff | src/main.rs:352-378 | Exactly what is accepted, and as what: `hf://buckets/`, any slashes, organization, name and path, any slashes; or `org/name` |
| Destination.PrintedDestinationIsTheSame | src/main.rs:352-378 | Whatever destination was accepted, its printed URI is read as the same one |
| Stop.LinkRoundTrip | src/stop.rs:42-83 | A planner link survives the environment exactly when its names have no slash and no outer white space and its period is a positive 64-bit number; a period that is missing, zero or too large is read as 60 seconds |
| Stop.WatchPlanner | src/stop.rs:132-146 | It asks about the planner's job only, and ends at the first answer that it has ended, which it really has; failed polls stop nothing |
| Stop.UnderWatch | src/main.rs:297-300 | A copier under its watch: no cancel before an answer that the planner has ended; after the first one the very next request cancels its own job |
| Stop.CancelSelf | src/stop.rs:148-168 | It cancels the copier's own job, if the environment names one, and never ends in success |

## Left out

- HTTP, S3, CAS and xet-core calls, tokens, region detection and JSON decoding: their answers are parameters, or choices the environment makes.
- Real time: timeouts, backoff sleeps, the stall poller and watchdogs are failures that may happen at any step; `send_retry` is one request that may fail.
- The whole of `src/progress.rs`: only the counters that the conservation results need are kept; listing counters for log lines are not.
- `space/`: the web page.
- Glob matching: any predicate on keys.
- Reading cgroup files, `lowest_cgroup_limit` and `limits_up_to_root`: the limit is a parameter of the sizing.
- XOR mode, dry-run statistics and the command-line parser; `parse_s3_url`.
- Rerun.ArgsAreTheRange: which arguments the command-line parser takes for a value is a parameter, since the parser is a library.
- Part pool: `MAX_PERMITS` of the semaphore enters in `MemoryBound` only; the pool is a step system whose steps are the original's atomic actions, and `PoolReader` runs `acquire` with the file's own reader task doing nothing else meanwhile, and the drop of one slot with nobody else doing its own two updates for it.
- PoolReader.Pool.Acquire: waits for at most `patience` looks, because whether a slot comes free is the liveness result of the step system, not of the method.
- FleetPlanner.Planner.WaitForSlot: waits for at most `polls` polls, because a job may run for ever.
- FleetPlanner.Planner.Monitor: gives up after `polls` polls without a verdict, for the same reason; its bound is `FleetResults.MonitoringIsBounded`.
- FleetPlanner.Planner.Cut: the launch stagger and the job specification are not modelled; the range it records is `RangePlan.Planner.Cut`, the two halves of one method of the original.
- Sizing.FitIsOptimal: for part concurrencies where `parts_per_file` itself does not overflow (`Sized`).
- Ingest.SplitRanges: offsets are unbounded, so the overflow of `start + part_size` near 2^64 is not modelled; part sizes are at least 1, as the copier makes them.
- Counters other than the planner's and copier's byte sums (which saturate, as in the original) are unbounded.
- UploadLoop.Loop.Move: an upload or commit in the background moves by the step system's own function, since its code is not the driver's.
- CopyListing.List: a consumer that died ends the original's listing early; the run then fails with the consumer's error, so that exit is left out.
- The settle wait before the check is a flag of the report.
- `watch_every`: a maximum of two constants of the fleet size.
- Stop.UnderWatch: the copy that races the watch is time passing; `FleetStop` has it as the job's own stage.
- PlannerRun.StartAll: takes the ranges as the listing closes them (`RangePlan.Planner.Run`); a signal comes between two calls, or leaves a start unanswered, and the pause between launches is left out.
- PlannerRun.RunPlan: answers `Waits` when it still waits for a slot or a copier after `polls` refreshes.
