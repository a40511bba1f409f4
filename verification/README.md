# Verified model of the monitoring agent, its traffic counters and its live view

This project models the parts of the monitoring system in which a mistake loses
or invents data, and proves what they promise.

**Result delivery and probe scheduling (agent).** Probes start and finish
concurrently; their results are numbered, queued, leased into reports, sent in
batches over a WebSocket session or HTTP, acknowledged, filtered or put on a
retry queue, while policies remove and redefine tasks. `Lanes` and `Delivery`
specify every critical section as a function on the shared state, `Reporter`
combines them with the reporter's local slices into a state machine whose steps
interleave freely, and `DeliveryTheorems` and `DeliveryProgress` prove what holds
in every reachable state. `LaneLoops`, `AgentState` and `ReporterLoop` are the
imperative code: loops and objects proved to perform exactly those steps.

**Traffic accounting (agent).** `Calendar` has the billing dates.
`TrafficTracker` turns interface counters into per-period totals in 64-bit
arithmetic; `TrafficConservation` proves conservation over runs and
`TrafficAcceptance` which saved states the decoder accepts. `TrafficFiles`
models the directory of saved generations as a map from names to contents, with
every file operation a step. `TrafficCrash`, `TrafficSaves` and `TrafficRuns` prove what a reader
recovers when a save stops anywhere, and over whole runs of saves, failures,
crashes and restarts. `TrafficRestarts` joins tracker and directory: restarts
are invisible. `TrafficWriter` and `TrafficAgent` are the objects that perform
the operations; each single file operation may fail.

**Live view (frontend).** HTTP snapshots race with socket patches.
`LiveEffects` shows that a list of patches acts on each client as one effect
which absorbs its own replay; `LiveScopes` proves convergence over all runs;
`LiveScopeRuns` adds stale reads, disjointness and the object.
`LiveOlderAnswers` and `LiveLastKnown` say exactly where the guarantees end.

**Smaller algorithms.** `DiskScan` (directory size, hard links once),
`HistoryPages` (cursor-paged history), `LogRotation`, `Base32` over a 32-bit
accumulator (section 6 of RFC 4648, unpadded), `RateLimit`, `CpuSet`.

Time is an integer (seconds or milliseconds as in the source). Network, probe
execution, timers and clocks are inputs or nondeterministic steps. A state is
checked against its specification by `ensures View() == ...` on the methods of
the objects; the theorems are about those specifications.

Five properties do not hold for all inputs; each is proved together with the
exact condition and an instance that misses it.
- A completed save is what the next reader recovers iff its revision is not
  below the one it replaced (`TrafficSaves.SaveReadsBackIff`). A start that was
  refused can miss this (`TrafficRuns.BlindStartLosesSave`), so restarts are
  transparent from directories that hold a generation or none.
- Every saved state is accepted by the decoder iff no sample makes a sum that
  lies in the upper half of 64 bits (`TrafficAcceptance.SavedStatesAccepted`,
  refused at `TrafficAcceptance.HalfIsRefusedTwiceIsNot`).
- Base32 decoding inverts encoding iff there are bytes (`Base32.RoundTrip`).
- A read that began with a snapshot at hand and is answered by an older one
  still converges iff the patches in between are absorbed
  (`LiveOlderAnswers.OlderAnswerConvergesIff`, missed in
  `LiveOlderAnswers.OlderAnswerRollsBack`).
- Replaying patches leaves a last-known record alone iff it does not depend on
  the fields the client had before them (`LiveLastKnown.LastKnownStableIff`,
  missed in `LiveLastKnown.LastKnownIsNotStable`).

## Model

| member | source | states |
|---|---|---|
| DeliveryTheorems.LeaseConservation | agent/report_delivery.go:30-262 | in every reachable state a pending result is leased iff a held report (retry queue, in flight, session pending) carries its current number; there is exactly one such report and it carries the result itself |
| DeliveryTheorems.HeldOrder | agent/main.go:1431-1494 | along everything held, result numbers strictly increase in each lane, across reconnects, failures and HTTP batches; batches have at most 300 reports and reports at most 50 and 20 results |
| DeliveryTheorems.OneBatchAtATime | agent/main.go:1441-1459 | an unacknowledged batch is replaced by none: it stays until its acknowledgement or the end of the session |
| DeliveryTheorems.NumberConservation | agent/report_delivery.go:77-262 | every number ever issued is pending in one lane, acknowledged, or dropped by a policy, and only one of these |
| DeliveryTheorems.DefinitionFidelity | agent/report_delivery.go:23-58 | after any interleaving, pending results and uncancelled runs came from a definition that some current task still has |
| DeliveryTheorems.SchedulerInvariant | agent/probe_scheduler.go:106-186 | the active counter is the number of running probes and at most four; nothing is running and pending; the order lists are the pending results, oldest first |
| DeliveryTheorems.FinishQueuesIffLive | agent/probe_scheduler.go:143-186 | a cancelled or closing run leaves no result; any other queues exactly its own under a fresh number, never losing it to the duplicate check |
| DeliveryTheorems.ResultLeavesOnly | agent/report_delivery.go:30-219 | along every step a pending result keeps its number and lease unless a batch carrying that number is accepted or a policy removes or redefines its task |
| DeliveryProgress.SentIsCurrent | agent/report_delivery.go:154-188 | every result in a batch, when it is sent, is the pending one of its task under its current number |
| DeliveryProgress.SplittingIsExact | agent/report_delivery.go:99-152 | the split-off reports concatenate to exactly the unleased results, oldest first, within the limits of a report, and nothing stays unleased |
| DeliveryProgress.ReconnectRetries | agent/main.go:1436-1440 | ending a session and reconnecting gives back exactly the held reports, in order, with their samples and current results |
| DeliveryProgress.EverythingCanBeDelivered | agent/main.go:1379-1515 | from every reachable state of an idle WebSocket session there is a legal run that gets every pending result acknowledged |
| ReporterLoop.HttpDeliversEverything | agent/report_delivery.go:264-277 | from every reachable state of an idle HTTP reporter, one preparation and one delivery with accepted batches gets every pending result acknowledged |
| DeliveryProofs.StepKeeps | agent/report_delivery.go:30-277 | every step of the agent preserves the whole invariant of queue, leases, held reports, runs and numbers |
| ProbeRuns.SameProbeIsEquivalence | agent/report_delivery.go:23-28 | probe identity is reflexive, symmetric and transitive, case of type and method aside |
| ProbeRuns.BestIsEarliest | agent/probe_scheduler.go:68-104 | the lane's choice is an earliest-due eligible task, and there is a choice iff an eligible task exists |
| ProbeRuns.DecideIsEarliest | agent/probe_scheduler.go:106-141 | a launch takes an earliest-due task over both lanes that is due; no launch means none is due; ties go to the preferred lane |
| ProbeRuns.LaunchDueExhausts | agent/probe_scheduler.go:106-141 | on return four probes run, the agent is closing, or no eligible task is due; a wake-up time is set iff slots and an eligible task remain, and is the earliest due time, in the future |
| ProbeRuns.LaunchDueIsFair | agent/probe_scheduler.go:106-141 | every launch of the loop was an earliest-due choice in the state its predecessors left |
| ProbeRuns.TiesAlternate | agent/probe_scheduler.go:115-127 | in every run of the agent, two ties with no tie between them launch different kinds, whatever happens in between and in one launch loop or several |
| ProbeRuns.OnlyTiesTurn | agent/probe_scheduler.go:106-141 | of all steps of the agent only launches on ties change the preferred kind, each turning it around |
| ProbeRuns.BackedSurvives | agent/report_delivery.go:30-58 | what a policy change keeps is defined by the new policy as by the old, also with duplicate task IDs |
| ProbeRuns.PolicyKeepsFidelity | agent/main.go:852-883 | a policy change leaves no pending result or uncancelled run that a current task does not define |
| LaneLoops.LeasePending | agent/report_delivery.go:99-130 | the leasing loop takes the oldest unleased results up to the limit and marks exactly those |
| LaneLoops.CurrentResults | agent/report_delivery.go:154-175 | the filter loop keeps exactly the results whose lease is the current number |
| LaneLoops.PruneOrder | agent/report_delivery.go:60-75 | the pruned order is the old one without the results that are gone |
| LaneLoops.Invalidate | agent/report_delivery.go:30-58 | exactly the removed or redefined tasks lose result and schedule, and exactly their runs are cancelled |
| LaneLoops.NextDue | agent/probe_scheduler.go:68-104 | the selection loop finds the specified earliest choice |
| LaneLoops.Configure | agent/main.go:864-877 | missing intervals are filled from the policy, everything else is kept |
| AgentState.PingReportState.AppendPendingResults | agent/report_delivery.go:99-130 | performs the leasing step of one report on both lanes and nothing else |
| AgentState.PingReportState.AppendPendingReports | agent/report_delivery.go:132-152 | the splitting loop terminates and performs exactly the specified splitting |
| AgentState.PingReportState.CurrentReportResults | agent/report_delivery.go:177-188 | returns every report reduced to its current results |
| AgentState.PingReportState.RetryReports | agent/report_delivery.go:233-245 | appends exactly the reports that still have current results |
| AgentState.PingReportState.TakeRetryReports | agent/report_delivery.go:247-262 | empties the retry queue and returns its current reports in order |
| AgentState.PingReportState.AcknowledgeReports | agent/report_delivery.go:190-219 | removes exactly the results leased under the acknowledged numbers |
| AgentState.PingReportState.PruneResultOrder | agent/report_delivery.go:60-75 | prunes both order lists and nothing else |
| AgentState.PingReportState.ApplyPolicy | agent/main.go:852-883 | performs the policy step: interval, tasks, dropped results, cancelled runs |
| AgentState.PingReportState.LaunchDueProbes | agent/probe_scheduler.go:106-141 | the launch loop performs exactly the specified launches and returns the wake-up time |
| AgentState.PingReportState.FinishProbe | agent/probe_scheduler.go:143-186 | performs the finishing step: run record, result unless interrupted, counter |
| ReporterLoop.ReporterAgent.Prepare | agent/main.go:3078-3082 | retried reports first, then the new sample, then the split-off reports |
| ReporterLoop.ReporterAgent.Flush | agent/main.go:1441-1459 | takes the next batch only when ready and nothing is in flight |
| ReporterLoop.ReporterAgent.Acknowledged | agent/main.go:1486-1494 | an acknowledgement is applied to the batch in flight and to it alone |
| ReporterLoop.ReporterAgent.EndSession | agent/main.go:1436-1440 | returns in-flight, then pending reports to the retry queue |
| ReporterLoop.ReporterAgent.DeliverHTTPReports | agent/report_delivery.go:264-277 | batches go out in order until one is rejected; success iff every one was accepted |
| ReporterLoop.DeliverIsARun | agent/report_delivery.go:264-277 | a delivery is a legal run of single steps, so every theorem applies between any two of them |
| Calendar.ResetsAscend | agent/main.go:2824-2831 | reset dates strictly increase month by month for every reset day |
| Calendar.LastResetIsGreatest | agent/main.go:2814-2822 | the period starts on the greatest reset date not after now |
| Calendar.SamePeriodIffNoReset | agent/main.go:2809-2831 | two instants share a period iff no reset date lies between them |
| TrafficFiles.ReadTrafficResetState | agent/traffic_persistence.go:72-118 | the scan loop computes the specified recovery |
| TrafficCrash.ReadIsBest | agent/traffic_persistence.go:71-118 | the reader recovers a highest revision of all readable candidates, the main file on ties, and refuses iff a candidate is unreadable or newer |
| TrafficCrash.CrashSafety | agent/traffic_persistence.go:175-231 | a save stopped after any operation leaves the old generation while its staging file is incomplete and the new one from then on, whatever the listing order |
| TrafficCrash.FailureSafety | agent/traffic_persistence.go:141-160 | the same when an operation fails and its unfinished temporary file is removed |
| TrafficSaves.DamagedBytesSurvive | agent/traffic_persistence.go:120-139 | over damaged generations only, every damaged file's bytes are in some file after each operation of the whole save |
| TrafficSaves.CompletedSave | agent/traffic_persistence.go:175-231 | a completed save leaves the new generation as main file, the replaced one as backup, and no other candidate |
| TrafficSaves.SaveReadsBackIff | agent/traffic_persistence.go:71-118 | a completed save is recovered next iff its revision is not below the replaced one; otherwise the replaced one is |
| TrafficRuns.RecoversLastStaged | agent/traffic_persistence.go:72-231 | at every point of every run of saves, failures, crashes and restarts a reader recovers exactly the last generation staged completely |
| TrafficRuns.RecoveryNeverRegresses | agent/traffic_persistence.go:72-231 | what is recovered never grows older along a run |
| TrafficRuns.BlindStartLosesSave | agent/main.go:2973-2993 | after a start that found an unreadable candidate a completed save can be lost: a concrete instance |
| TrafficWriter.StateDirectory.WriteSyncedTemp | agent/traffic_persistence.go:141-160 | writes completely, or leaves nothing, a partial file, or its removal |
| TrafficWriter.StateDirectory.QuarantineTrafficState | agent/traffic_persistence.go:120-139 | performs a prefix of the copy-then-remove operations, all of them on success |
| TrafficWriter.StateDirectory.WriteTrafficResetState | agent/traffic_persistence.go:175-231 | performs a prefix of the specified operations; on success all of them up to removals that failed; refuses untouched when recovery does |
| TrafficConservation.TrafficConserved | agent/main.go:2881-2971 | over any run on one boot, across any number of periods, closed totals plus the open one equal the start plus all gains, up to whole turns of 64-bit arithmetic |
| TrafficConservation.TotalIsExact | agent/main.go:2933-2957 | within a period the total is exactly the start plus the gains while it fits 64 bits |
| TrafficConservation.TotalsNeverFall | agent/main.go:2933-2957 | totals never fall within a period |
| TrafficConservation.GainsTelescope | agent/main.go:2874-2879 | uninterrupted counters telescope to the last reading minus the first |
| TrafficConservation.JoiningAddsNothing | agent/main.go:2933-2941 | an interface that joins adds nothing |
| TrafficRestarts.RestartsAreTransparent | agent/main.go:2699-2754 | over a directory that holds a generation or none, with completed saves and sums within 64 bits, restarting at any points between samples and policies changes no report |
| TrafficAcceptance.SavedStatesAccepted | agent/traffic_persistence.go:27-54 | from any readable start every state saved in a run is accepted by the decoder iff, for each sample, the sum of its counters and the new total lie in the lower half of 64 bits, whole turns aside |
| TrafficAcceptance.SmallSumsAccepted | agent/main.go:2881-2971 | as long as no sum reaches half a turn every saved state is accepted |
| TrafficAcceptance.BoundedCountersAccepted | agent/main.go:2881-2971 | a condition on the counters alone: the starting total and everything ever shown below half a turn in all |
| TrafficAcceptance.HalfIsRefusedTwiceIsNot | agent/traffic_persistence.go:42 | one counter at half a turn makes the first state unacceptable, two of them do not: concrete inputs |
| TrafficRestarts.SaveKeepsSynced | agent/main.go:2995-3003 | after a completed save, whatever its listing, names and leftovers, the directory holds the saved state and a process started from it is like the running one |
| TrafficRestarts.SaveCanComplete | agent/traffic_persistence.go:175-231 | over any directory that holds a generation or none there are listings and names with which a save completes |
| TrafficAgent.SumCounters | agent/main.go:2882-2888 | the loop adds up all counters in 64-bit arithmetic in any iteration order |
| TrafficAgent.SumGains | agent/main.go:2933-2941 | the loop adds up the gains of the interfaces present in both samples in any order |
| TrafficAgent.TrafficResetTracker.constructor | agent/main.go:2699-2718 | starts from what is recovered: saved policy first, then a restored day, then the command line |
| TrafficAgent.TrafficResetTracker.Load | agent/main.go:2973-2993 | takes over the recovered state, or marks history incomplete when all generations are damaged |
| TrafficAgent.TrafficResetTracker.Save | agent/main.go:2995-3003 | raises the revision and leaves what a save may leave |
| TrafficAgent.TrafficResetTracker.SetPolicyResetDay | agent/main.go:2736-2754 | installs the day, saving only a policy that is new |
| TrafficAgent.TrafficResetTracker.AdjustInterfacesSinceBoot | agent/main.go:2881-2971 | one sample: the whole new state, migration branches included, and its save |
| TrafficAgent.SaveKeepsRecoverable | agent/main.go:2995-3003 | however a tracker's save ends, the directory holds the older generation or the saved one |
| LiveRecords.ReplayKeepsDisjoint | frontend/src/contexts/LiveDataContext.tsx:151-239 | patches keep online and last-known clients apart |
| LiveEffects.MergeIsOver | frontend/src/contexts/LiveDataContext.tsx:163-182 | merging an update, with its capacity and error rules, is overwriting by what the update alone determines |
| LiveEffects.ReplayIsEffect | frontend/src/contexts/LiveDataContext.tsx:151-239 | a list of patches acts on each client as one effect independent of the start |
| LiveEffects.ReplayTwice | frontend/src/contexts/LiveDataContext.tsx:151-239 | replaying applied patches changes no client |
| LiveEffects.OverlapAbsorbed | frontend/src/contexts/LiveDataContext.tsx:253-260 | after a prefix of the log, replaying any overlapping end of it gives the result of the whole log |
| LiveScopes.Converges | frontend/src/contexts/LiveDataContext.tsx:245-312 | at every point of every run at which the socket has delivered what the last full snapshot reflected, every client shown is the fold of everything delivered |
| LiveScopes.AnswerConverges | frontend/src/contexts/LiveDataContext.tsx:275-282 | an accepted HTTP answer that reflects no more than what has arrived shows exactly the fold of what has arrived |
| LiveScopes.NewerIsSuffix | frontend/src/contexts/LiveDataContext.tsx:256-260 | filtering earlier patches by timestamp keeps an end part of them |
| LiveScopeRuns.StaleReadsChangeNothing | frontend/src/contexts/LiveDataContext.tsx:266-289 | a stale read stays stale through every run, changes nothing and reports no error |
| LiveScopeRuns.Superseded | frontend/src/contexts/LiveDataContext.tsx:266-311 | a later read, a full snapshot, its own answer or end, or disposal make a read stale |
| LiveScopeRuns.NeverBoth | frontend/src/contexts/LiveDataContext.tsx:245-312 | in every run no client is shown online and last known |
| LiveOlderAnswers.OlderAnswerConvergesIff | frontend/src/contexts/LiveDataContext.tsx:266-282 | in every run, an answer of any age to the current read of a scope with a snapshot shows a client as the server has it, for every base, iff the patches it reflects followed by the read's own act like the whole log |
| LiveOlderAnswers.GapAbsorbedIff | frontend/src/contexts/LiveDataContext.tsx:253-282 | whatever the answer shows, it converges iff the read's own patches act like all patches since the answer |
| LiveOlderAnswers.ReplaysAlikeIff | frontend/src/contexts/LiveDataContext.tsx:253-255 | two lists of patches give the same client on every snapshot iff their effects agree in all they overwrite, or in what they leave after a removal |
| LiveOlderAnswers.NoOlderIsEnough | frontend/src/contexts/LiveDataContext.tsx:266-282 | an answer no older than its read always meets the condition |
| LiveOlderAnswers.OlderAnswerRollsBack | frontend/src/contexts/LiveDataContext.tsx:266-282 | an answer older than its read brings a removed client back: an instance that misses the condition |
| LiveLastKnown.LastKnownStableIff | frontend/src/contexts/LiveDataContext.tsx:211-239 | replaying patches on their own result leaves a client's last-known record alone, whatever the start, iff the patches are not updates followed by offline removals, or a removal brings a record no older than they are, or they leave nothing of the start, or there is nothing to remember |
| LiveLastKnown.DerivedIff | frontend/src/contexts/LiveDataContext.tsx:211-239 | the remembered record depends on the start's own fields exactly when the client's patches are updates followed by offline removals |
| LiveLastKnown.ReplayIsLastEffect | frontend/src/contexts/LiveDataContext.tsx:211-239 | a list of patches acts on a client's last-known record as one effect |
| LiveLastKnown.LastKnownAbsorbed | frontend/src/contexts/LiveDataContext.tsx:253-260 | replaying an overlapping end of the log gives the log's own last-known record wherever the overlap is stable |
| LiveLastKnown.LastKnownIsNotStable | frontend/src/contexts/LiveDataContext.tsx:221-227 | a partial update and an offline removal without record lose last-known fields when replayed: an instance that misses the condition |
| LiveScopeRuns.LiveSnapshotScope.BeginRead | frontend/src/contexts/LiveDataContext.tsx:266-269 | opens a read that owns the patches from now on and supersedes the pending one |
| LiveScopeRuns.LiveSnapshotScope.Complete | frontend/src/contexts/LiveDataContext.tsx:275-282 | commits only for the pending read, with earlier newer patches and then its own |
| LiveScopeRuns.LiveSnapshotScope.Snapshot | frontend/src/contexts/LiveDataContext.tsx:283-290 | a pushed snapshot replaces everything and ends the pending read |
| LiveScopeRuns.LiveSnapshotScope.Seed | frontend/src/contexts/LiveDataContext.tsx:291-297 | cached data are used only before any snapshot, with newer patches replayed |
| LiveScopeRuns.LiveSnapshotScope.Patch | frontend/src/contexts/LiveDataContext.tsx:298-304 | a patch reaches what is shown, the pending read and, before any snapshot, the initial list |
| LiveScopeRuns.LiveSnapshotScope.FinishRead | frontend/src/contexts/LiveDataContext.tsx:274 | ends only the pending read |
| LiveScopeRuns.LiveSnapshotScope.Dispose | frontend/src/contexts/LiveDataContext.tsx:305-310 | a disposed scope shows nothing and commits nothing |
| DiskScan.RunCounts | agent/container_disk_usage_scan_linux.go:89-190 | the walk succeeds iff every limit holds for the whole tree, and then has counted each inode once |
| DiskScan.BlocksAgree | agent/container_disk_usage_scan_linux.go:176-190 | on a static tree the blocks counted for an inode are those of each of its links |
| DiskScan.DirectoryDiskWalker.WalkDirectory | agent/container_disk_usage_scan_linux.go:89-134 | the recursive walk is the walk over the flattened list of what it meets, and fails exactly when that does |
| DiskScan.DirectoryDiskWalker.VisitEntry | agent/container_disk_usage_scan_linux.go:136-174 | an entry that vanished before it was opened is skipped with nothing counted, any other failure ends the walk |
| DiskScan.DirectoryDiskWalker.CountBlocks | agent/container_disk_usage_scan_linux.go:176-190 | hard links count once, a directory met twice and sizes out of range are refused |
| DiskScan.ScanDirectoryAllocated | agent/container_disk_usage_scan_linux.go:35-87 | success iff the limits are valid and the tree is within them; the result is 512 bytes times the blocks of the distinct inodes, at most 10^15 |
| HistoryPages.RestAfter | frontend/src/utils/publicHistory.ts:94-96 | going on from a page's last record leaves exactly what the page left, under a smaller cursor |
| HistoryPages.SortSorts | frontend/src/utils/publicHistory.ts:80-92 | the result order is sorted and loses nothing |
| HistoryPages.WalkPages | frontend/src/utils/publicHistory.ts:223-246 | falling cursors; sorted, unique, within range; against a paging server exactly the range or too many pages |
| HistoryPages.CollectCursorHistory | frontend/src/utils/publicHistory.ts:203-247 | at most 32 pages; either a failure or exactly the records of the range, never a silent truncation |
| LogRotation.RotationKeeps | agent/logging.go:114-151 | a rotation keeps a newest part of the files and drops only what exceeds the backups or is too old |
| LogRotation.WriteKeeps | agent/logging.go:153-176 | every write keeps the files joined oldest to newest an end part of the written stream, each within its limit |
| LogRotation.RunKeeps | agent/logging.go:34-176 | so does every run of writes, within (backups + 1) times the limit in all |
| LogRotation.RotatingAgentLog.Prune | agent/logging.go:91-112 | the loop removes exactly the stale backups |
| LogRotation.RotatingAgentLog.Rotate | agent/logging.go:114-151 | the renaming loop moves every file up by one and drops the last |
| LogRotation.RotatingAgentLog.Write | agent/logging.go:153-176 | keeps the log valid, appends exactly the cut data to the stream and reports the full length |
| LogRotation.RotatingAgentLog.Open | agent/logging.go:71-89 | the tracked size is the file's and the day is the file's, or today for an empty one |
| Base32.RoundTrip | worker/src/auth/totp.ts:18-54 | decoding inverts encoding iff there are bytes; nothing encodes to a text that is refused |
| Base32.ShiftedIn | worker/src/auth/totp.ts:18-32 | the unmasked 32-bit accumulator keeps the bits that are still needed |
| Base32.Base32Encode | worker/src/auth/totp.ts:18-32 | ceil(8n/5) symbols whose bits are the bytes' bits filled up with zeros |
| Base32.Base32Decode | worker/src/auth/totp.ts:34-54 | refuses iff the trimmed text is empty or has a foreign symbol; otherwise the bytes' bits are the text's, but for an incomplete rest |
| RateLimit.CountsWindow | worker/src/do/rate-limit.ts:73-89 | the counter is the number of requests in the window so far, windows being greedy from the first request |
| RateLimit.AtMostTwice | worker/src/do/rate-limit.ts:73-89 | no interval of a window's length admits more than twice the limit |
| RateLimit.KeysAreIndependent | worker/src/do/rate-limit.ts:102-115 | sweeps and other keys never change what a key's requests find |
| RateLimit.LimitsHold | worker/src/do/rate-limit.ts:73-100 | over any run with any sweeps, a request is admitted iff it is among the first of its window |
| RateLimit.LifeLimits | worker/src/do/rate-limit.ts:49-171 | so is every answer in any life of the object, a sequence of requests, refused ones among them, and clean-ups, as long as the active buckets fit |
| RateLimit.RateLimitDO.CleanupExpiredBuckets | worker/src/do/rate-limit.ts:102-115 | removes exactly the expired buckets, invisibly |
| RateLimit.RateLimitDO.EnforceBucketLimit | worker/src/do/rate-limit.ts:128-153 | nothing up to the limit; over it, expired buckets go, and of the others exactly the overflow, oldest first |
| RateLimit.RateLimitDO.CountRequest | worker/src/do/rate-limit.ts:73-89 | counts one request of one key; due sweeps stay invisible while the active buckets fit |
| RateLimit.RateLimitDO.CheckRateLimit | worker/src/do/rate-limit.ts:49-100 | refused requests change nothing; the answer follows the key's own counter with the least whole seconds to wait |
| RateLimit.RateLimitDO.Alarm | worker/src/do/rate-limit.ts:155-171 | the periodic clean-up is invisible while the active buckets fit, and otherwise drops exactly the overflow |
| CpuSet.CountUnion | agent/cgroup_cpu.go:197-209 | the sweep over the sorted ranges counts their union |
| CpuSet.CpuSetCount | agent/cgroup_cpu.go:175-210 | valid iff every part is a range in bounds; the count is the size of the union, whatever the order and overlap |

## Left out

- Network, DNS, probe execution, WebSocket transport, timers and the wake-up channel of the scheduler: steps that may happen at any time with any result.
- The attachment and acknowledgement of basic host information in reports (agent/report_delivery.go:221-231): a separate small protocol.
- Case folding in probe identity is modelled for ASCII letters only.
- Result numbers, revisions and run identities are unbounded naturals; the source uses 64 bits and pointers.
- Overflow of time durations, and the command-line fallback of the ping interval, which a policy always replaces by a positive interval.
- The concurrent scheduler keeps its own due logic; the older `dueTasks` functions are not modelled.
- JSON encoding: a file holds a state, bytes that are no encoding, or cannot be read. Durability of rename and sync is assumed.
- The number of scratch names a save needs is assumed to be available.
- `setResetDay`, time zones and daylight saving: dates are days of one fixed offset.
- BlindStartLosesSave: one instance; the exact condition for all inputs is SaveReadsBackIff.
- TrafficConserved: a run on one boot; a changed boot inside a period adds the counters since that boot, as the specification of one sample says.
- Converges: runs in which a read that began with a snapshot is answered by no older one; OlderAnswerConvergesIff has the others. Last-known records are not part of it (LastKnownAbsorbed has them, where the overlap is stable), nor is the order of the online list.
- The React context around the scope, metadata messages and reconnect logic.
- VisitEntry: an entry that vanishes after it was opened (inside a nested read, or before the second look at a directory) is skipped by the source with what was counted kept; the model has only entries that vanish before they are opened, as on a static tree.
- RestartsAreTransparent: restarts with completed saves; runs with failed and stopped saves are RecoversLastStaged. The start is a directory that holds one generation or none, as every directory of such runs does; a refused recovery, or two files of the same highest revision with different contents, is outside it.
- The mount table and descriptors of the directory scan: an entry opens, has vanished, or is refused. Cancellation by timeout.
- Parsing of timestamps and cursor texts, abort signals, and the server side of the history pages.
- RotatingAgentLog: starts from an empty directory and meets no I/O error.
- RateLimit: eviction of active buckets is specified (EnforceBucketLimit) but the limits are proved for runs without it; storage errors and concurrent requests are not modelled.
- Splitting and number parsing of CPU lists: parts arrive with their ends parsed or failed.
- `counterBytes`, HMAC and the comparison of codes in worker/src/auth/totp.ts.
