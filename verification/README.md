# A verified model of GitLab Runner's core

GitLab Runner takes jobs from a GitLab coordinator, runs them through an executor
and streams their log back. This project models the parts of it in which the order
of events matters, and proves what they keep over every input and every run.

| file | component | form |
|---|---|---|
| `TraceBuffer.dfy` | the masking, size-limited job log | class `Buffer`, proved against a log value and its runs |
| `TraceProtocol.dfy` | watcher, finisher, network and coordinator of one job's trace | step system |
| `TraceClient.dfy` | the sequential drain of the trace when a job ends | classes with the retry loop |
| `PatchResponse.dfy` | reading the answer to a trace patch | functions |
| `BuildsHelper.dfy` | build and request counters, numbering of builds | class `Helper` |
| `WorkerPool.dfy` | scaling, stopping and draining of workers, and what each acquires and releases | step system |
| `MachineScaling.dfy` | one scaling pass of the docker-machine provider | class `Provider` |
| `MachineHolds.dfy` | who holds which machine, over all interleavings | step system |
| `BuildStages.dfy` | the stages of a build script | class `Build` |
| `BuildRun.dfy` | creation, preparation, running, finishing and cleaning up of executors | step system |
| `ShellEscape.dfy` | quoting for Bash, and a reader of Bash words | loop, and functions |
| `Time.dfy` | 64-bit rounding of durations | functions |
| `Base.dfy` | bytes, options, decimal numerals | functions |

Code that one goroutine runs alone is modelled in its own form, as a class or a loop
proved against a specification. Code in which goroutines interleave is modelled as a
step system: a state, the actions that are enabled in it, and the state after each.
One action is what the program does under one lock, or up to the next channel or
network operation. `After(Start(...), acts)` is the state after a list of actions,
and a theorem about `Reachable` states holds for every such list.

## What the code does where one might expect otherwise

- `helpers/shell_escape.go:27` names 90 `LOWERCASE_Z`, but 90 is the upper-case
  letter. Lower-case letters are therefore quoted, although the comment above
  `ShellEscape` says that strings that need no escaping are left as they are: the word
  for `a` is quoted (`LowerCaseIsQuoted`), and of the strings that mean themselves to
  Bash exactly those without a lower-case letter are left alone (`PlainLeftAsIsIff`;
  `LeftAsIsIff` for all strings). The round trip is not affected. It fails exactly for
  strings with a NUL byte (`RoundTripIffNulFree`).
- `sendUpdate` reads the failure reason outside the lock under which it reads the
  state, so an update can report a running job with a failure reason
  (`RunningMayCarryAReason`; `ReasonFitsIff` says exactly when it does).
- The watcher may report a job's outcome before its trace is complete
  (`WatcherMayReportEarly`). It does so exactly when the client still has published bytes
  that it has not sent (`WatcherUpdateCompleteIff`). The forced update of `finish` never
  does, unless the coordinator has ended the drain (`FinalTraceIsComplete`).
- A canceled job is reported with the reason of a failed script, because `handleError`
  gives its error no reason (`ReportNamesTheCause`).
- A machine that the provider finds, rather than creates, counts as used once. With
  `MaxBuilds` 1 it is then idle with no builds left, and `useMachine` uses it once more
  (`FoundMachineOverused`; `UsageWithinMaxBuilds` has the exact condition).
- A masked value that another masked value extends is not masked when it has been
  written, but held back; if the log ends there, or goes on with a rune that no masked
  value has in this place, it comes out in clear (`MaskedAtOnceIffUnextended`). Of one
  that the limit cuts off, the runes read so far, a proper prefix, come out in clear when
  the log is closed (`SecretIsMasked`).

## Model

| member | source | states |
|---|---|---|
| `TraceBuffer.PublishedIsFinal` | helpers/trace/buffer.go:50-55 | Whatever is written, masked or closed later, the bytes already handed out stay in front, unaltered |
| `TraceBuffer.LogIsTokenImage` | helpers/trace/buffer.go:84-131 | For every input, with mask changes between tokens, the log is the images of complete tokens followed by the waiting tail; the tokens with the tail are exactly what was written, each rune under the mask in force when it was read, so a hidden piece is a value masked at that time |
| `TraceBuffer.NothingLost` | helpers/trace/buffer.go:133-159 | Everything read is written until the limit stops the reader, under the mask that the SetMasked calls before it put in force; what is written is always a prefix of what was read |
| `TraceBuffer.SplitUnique` | helpers/trace/buffer.go:84-109 | What was read, under whatever masks, has one split into complete tokens and a waiting tail |
| `TraceBuffer.LogOfSplit` | helpers/trace/buffer.go:84-131 | For every run with mask changes between tokens, the rune-by-rune buffer publishes exactly the images of that split and holds back its tail, with the limit message behind it once the limit is reached |
| `TraceBuffer.ReadIsWrite` | helpers/trace/buffer.go:139-155 | What the loop reads without an error is written, rune by rune in order, and nothing else |
| `TraceBuffer.ClosedYields` | helpers/trace/buffer.go:133-159 | The closed log is what was there, then the images of the tokens of the runes read, then their tail: of all of them, or up to the first with which the log is not below its limit, and then the message |
| `TraceBuffer.YieldsUnique` | helpers/trace/buffer.go:133-159 | That statement fits one log only |
| `TraceBuffer.TailStartsSecret` | helpers/trace/buffer.go:84-109 | The unpublished tail is empty or the beginning of some masked value |
| `TraceBuffer.SecretIsMasked` | helpers/trace/buffer.go:84-131 | A masked value that no other extends, written where nothing is pending, comes out as [MASKED] if the limit leaves room for all but its last rune; otherwise the reader stops at the first rune that reaches the limit, nothing of it is published, and closing publishes that proper prefix and the message |
| `TraceBuffer.MaskedValues` | helpers/trace/buffer.go:29-40 | There is a mask exactly if values are given, and its keys are exactly the non-empty ones |
| `TraceBuffer.ValueIsMasked` | helpers/trace/buffer.go:29-108 | Every value given to SetMasked that no other one given extends comes out as [MASKED], where nothing is pending and the limit leaves room |
| `TraceBuffer.MaskedAtOnceIffUnextended` | helpers/trace/buffer.go:93-108 | Within the limit, writing a masked value publishes the mask text if and only if no other masked value extends it; otherwise it is held back, and closing, or a rune that continues no masked value, publishes it in clear |
| `TraceBuffer.StoppedIsFrozen` | helpers/trace/buffer.go:143-145 | After the limit nothing is stored or published any more |
| `TraceBuffer.LogLengthBounded` | helpers/trace/buffer.go:111-159 | The closed log is at most the limit, plus 7, plus the message, for every sequence of runes and mask changes; below the limit until it stops |
| `TraceBuffer.LogLengthAttained` | helpers/trace/buffer.go:100-130 | That bound is attained for every limit |
| `TraceBuffer.TreeKeys` | helpers/trace/buffer.go:35-38 | The tree holds exactly the non-empty values |
| `TraceBuffer.Buffer.constructor` | helpers/trace/buffer.go:161-165 | An empty, unmasked buffer with the default limit |
| `TraceBuffer.Buffer.SetMasked` | helpers/trace/buffer.go:29-40 | No values mean no mask, otherwise exactly the non-empty values are its keys; the log is untouched |
| `TraceBuffer.Buffer.SetLimit` | helpers/trace/buffer.go:42-44 | Changes the limit and nothing else |
| `TraceBuffer.Buffer.GetBytes` | helpers/trace/buffer.go:50-55 | Returns the published part of the log |
| `TraceBuffer.Buffer.AdvanceAll` | helpers/trace/buffer.go:72-81 | Publishes the tail and keeps every byte |
| `TraceBuffer.Buffer.AdvanceLog` | helpers/trace/buffer.go:84-109 | Byte buffer and offset refine the log value's advance |
| `TraceBuffer.Buffer.WriteRune` | helpers/trace/buffer.go:111-131 | One rune: refines the log value, and tells the end exactly when the limit is reached |
| `TraceBuffer.Buffer.Process` | helpers/trace/buffer.go:133-159 | The reading loop with its stopped flag leaves the closed run of the log value; started with nothing pending, the log is the one that `Yields` says for the runes read, and all of it is published |
| `PatchResponse.NewOffsetOfHeader` | network/patch_response.go:15-23 | The coordinator's range header for n stored bytes is read back as n, saturated at the largest int |
| `PatchResponse.NewOffsetOfAny` | network/patch_response.go:15-23 | With one separator the number behind it counts, whatever stands before; with none or several the offset is 0 |
| `PatchResponse.ReplyIsRead` | network/gitlab.go:359-398 | Exactly which answers are read as abort, success, not-found and mismatch, the job's state before the status, and where the offset goes |
| `PatchResponse.SplitCutsAtSeparators` | network/patch_response.go:16-16 | Splitting the header cuts at every separator and nowhere else: the pieces contain none and join to the header |
| `PatchResponse.EndsDrainIsRead` | network/gitlab.go:379-398 | Exactly the answers of a canceled, failed, forbidden or missing job, and requests the client cannot make, are read as abort or not-found |
| `TraceProtocol.RunKeepsInv` | network/trace.go:42-235 | Every step of watcher, finisher, callers, network and coordinator keeps the invariants about bytes, control and history |
| `TraceProtocol.StoredTraceIsPrefix` | network/trace.go:153-180 | With patches lost, late or repeated, the stored trace is a prefix of the published bytes, the client's offset is at most its length, and no slice is out of range |
| `TraceProtocol.FinalTraceIsComplete` | network/trace.go:96-136 | When finalTraceUpdate has returned, unless the coordinator answered one of its patches with abort or not-found, the coordinator holds the final buffer, and held it at every forced status update |
| `TraceProtocol.OutcomeIsTold` | network/trace.go:114-136 | When finish is done, its last update told the first outcome with its reason and was answered, not with a failure; all its updates before were answered with failures |
| `TraceProtocol.SentStateIsAcknowledged` | network/trace.go:182-209 | sentState is always the state in the last update that was answered with success |
| `TraceProtocol.RequestsNeverOverlap` | network/trace.go:131-145 | At most one call of the client is ever begun and not returned: by the rendezvous every call of the watcher has returned before the finisher begins one; finish runs exactly once when the outcome is decided and never before |
| `TraceProtocol.UpdatesTellTheFirstOutcome` | network/trace.go:182-235 | Every terminal state sent is the first outcome with its reason; a forced update is never about a running job; the watcher aborts only on an abort answer with a cancel function set, and nothing of it follows that or a request of the finisher |
| `TraceProtocol.AbortCancels` | network/trace.go:211-235 | An abort answer to a patch or an update cancels the build if and only if there is a cancel function to call, and the watcher then waits for the finish; after every other answer that ends a turn it goes on |
| `TraceProtocol.NextPatchIsSent` | network/trace.go:153-170 | Whenever there is something to send, the watcher's tick and the finisher's turn send exactly the next bytes, as many as fit; otherwise the watcher goes on to its update |
| `TraceProtocol.OffsetFollowsAnswer` | network/trace.go:169-180 | The offset goes to the end of the patch on success, to the coordinator's length on a mismatch, and stays otherwise |
| `TraceProtocol.UpdateDueIff` | network/trace.go:182-191 | The watcher sends an update if and only if the job's state is not the one last acknowledged, or a refresh is due |
| `TraceProtocol.FinisherGoesOnIff` | network/trace.go:96-129 | The drain ends exactly when nothing is left or an answer ends it, the status loop exactly on an answer that is not a failure |
| `TraceProtocol.FinishNeverStuck` | network/trace.go:131-136 | Until finish is done it can take a step, or waits for a watcher that can |
| `TraceProtocol.FirstOutcomeStays` | network/trace.go:42-58 | However a run goes on, the first outcome stays and finish has run once |
| `TraceProtocol.RunningMayCarryAReason` | network/trace.go:182-199 | A reachable run in which a running job is reported with a failure reason |
| `TraceProtocol.ReasonFitsIff` | network/trace.go:182-199 | The watcher's update is consistent unless it read a running job and the job has failed with a reason since |
| `TraceProtocol.WatcherMayReportEarly` | network/trace.go:138-145 | A reachable run in which the outcome is reported before the trace is stored |
| `TraceProtocol.WatcherUpdateCompleteIff` | network/trace.go:138-180 | Between its patch and its update the watcher's offset is exactly the stored length, whatever old patches are on the network; so its update comes after the whole trace if and only if nothing is left to send |
| `TraceClient.ChunksRoundsUp` | network/trace.go:163-167 | The number of patches is the bytes left divided by the patch size, rounded up |
| `TraceClient.PatchFits` | network/trace.go:163-167 | A patch cut at the stored length continues the stored trace and is one chunk of what is left |
| `TraceClient.ReplyMeans` | network/gitlab.go:379-398 | What each fate of a call makes of offset and state: success and the end offset, mismatch and the stored length, or no move; which ones end the drain, and which of these is not-found |
| `TraceClient.Coordinator.Patch` | network/gitlab.go:383-391 | The coordinator's side that those answers stand for: append at the end and 202, else 416 with the length |
| `TraceClient.ClientJobTrace.PatchTrace` | network/gitlab.go:340-399 | An empty patch is skipped; otherwise offset and state follow from what became of the call, and so does the stored trace |
| `TraceClient.ClientJobTrace.SendPatch` | network/trace.go:153-180 | An answered call brings the end of the drain exactly one call nearer; no other outcome moves it away or loses stored bytes |
| `TraceClient.ClientJobTrace.FinalTraceUpdate` | network/trace.go:96-112 | If the loop ends by itself the coordinator holds the whole buffer; it goes on only while fewer calls were answered than needed; with all answered it takes exactly as many as needed; it gives up at the first answer that ends it, and only there |
| `BuildsHelper.LeastFree` | commands/builds_helper.go:174-186 | The chosen number is free and at most as far from the start as there are numbers in use |
| `BuildsHelper.AllBelowLeastFree` | commands/builds_helper.go:174-186 | Every number below it is in use: it is the least |
| `BuildsHelper.FirstFree` | commands/builds_helper.go:174-186 | The search loop ends with the least free number |
| `BuildsHelper.NumbersBounded` | commands/builds_helper.go:159-186 | By counting, new numbers are at most the number of registered builds of the token, or of the token and project, above the start |
| `BuildsHelper.Helper.AcquireBuild` | commands/builds_helper.go:96-109 | Counts one build unless a positive limit is reached; other tokens untouched |
| `BuildsHelper.Helper.ReleaseBuild` | commands/builds_helper.go:111-121 | Takes one build off unless there is none |
| `BuildsHelper.Helper.AcquireRequest` | commands/builds_helper.go:123-137 | Counts one request below the concurrency, otherwise one refusal |
| `BuildsHelper.Helper.ReleaseRequest` | commands/builds_helper.go:139-149 | Takes one request off unless there is none |
| `BuildsHelper.Helper.IDsInUse` | commands/builds_helper.go:159-172 | The loop collects exactly the numbers in use for the token and for the token and project |
| `BuildsHelper.Helper.AssignIDs` | commands/builds_helper.go:174-186 | Both numbers are the least free ones and differ from those of every other matching build |
| `BuildsHelper.Helper.AddBuild` | commands/builds_helper.go:151-192 | Registers the build with its numbers, bounded by the matching builds; distinctness of all numbers is kept |
| `BuildsHelper.Helper.RemoveBuild` | commands/builds_helper.go:194-209 | Removes the build's one entry, keeps the others in order, and says whether there was one |
| `WorkerPool.RunKeepsInv` | commands/multi.go:126-276 | Every step of the main loop and of any worker keeps the invariants about counters, limits, builds, provider and pool |
| `WorkerPool.CountersMatchWorkers` | commands/multi.go:126-225 | Per token: registered builds <= counter.builds = workers between acquireBuild and releaseBuild <= limit; requests = workers inside RequestJob <= concurrency |
| `WorkerPool.RunnerIDsAreDistinctAndBounded` | commands/multi.go:184-192 | Running builds of a token have distinct RunnerIDs below the limit, of a token and project distinct ProjectRunnerIDs |
| `WorkerPool.NewRunnerIDBelowLimit` | commands/builds_helper.go:174-179 | A new RunnerID is below the number of builds counted for its token |
| `WorkerPool.AcquisitionsReleasedOnce` | commands/multi.go:208-225 | Every successful provider.Acquire is held by exactly one worker until the one Release that answers it, on every exit path |
| `WorkerPool.ReleasesAlwaysSucceed` | commands/multi.go:126-139 | No deferred release ever finds its counter at zero |
| `WorkerPool.CurrentWorkersIsExact` | commands/multi.go:389-416 | Whenever no rendezvous is half done, currentWorkers is the number of live workers |
| `WorkerPool.WorkersMatchConcurrent` | commands/multi.go:389-416 | When updateWorkers has returned, currentWorkers is the Concurrent it read and the number of workers live or starting; at no time are there more than the largest Concurrent read so far |
| `WorkerPool.WorkerGoesOnIff` | commands/multi.go:126-165 | A worker is counted unless its token's limit is reached, requests a job unless the request concurrency is, and goes on to a build exactly with a job |
| `WorkerPool.WorkerTakesRunner` | commands/multi.go:246-269 | A worker given a runner works for its token if Acquire succeeds, and waits again otherwise |
| `WorkerPool.BuildIsRegistered` | commands/builds_helper.go:151-192 | A new build is registered under its token and project with the least free numbers, and the others stay |
| `WorkerPool.DrainIsFinal` | commands/multi.go:572-588 | A stop signal begins the drain, and in the drain no worker is asked for any more |
| `WorkerPool.DrainNeverStuck` | commands/multi.go:584-590 | The drain can always finish, stop a worker, or wait for one that can take a step back to waiting |
| `WorkerPool.WorkCountsDown` | commands/multi.go:141-225 | Every step of a busy worker brings it nearer to waiting |
| `WorkerPool.FinishedIsClean` | commands/multi.go:572-591 | When Run reports the end: no worker live or starting, no build registered, all counters zero, everything acquired released once |
| `MachineScaling.ScanCounts` | executors/docker/machine/data.go:21-50 | After i listed machines the total is i, each counter is the number left in that state, and available are those left idle, creating or acquired |
| `MachineScaling.VisitDecides` | executors/docker/machine/provider.go:230-252 | A machine is removed exactly if it is idle and used up, or listed at or behind the limit, or stale with IdleCount idle ones kept before it; otherwise it is kept as it was |
| `MachineScaling.NoneIdleBeyondLimit` | executors/docker/machine/provider.go:240-243 | After the pass no machine at a position at or behind the limit is idle, and those idle or unknown before are under removal, even if names repeat |
| `MachineScaling.OnlyIdleChange` | executors/docker/machine/provider.go:231-233 | Machines busy before the pass, and machines not listed, are untouched |
| `MachineScaling.NewOnesOnly` | executors/docker/machine/provider.go:60-67 | Creation adds exactly the new names, as machines being created and never used, and changes nothing else |
| `MachineScaling.MissingIsLeast` | executors/docker/machine/provider.go:274-288 | The number of machines created is the least with which enough are available or the limit is reached |
| `MachineScaling.Provider.MachineDetails` | executors/docker/machine/provider.go:33-58 | Returns the known machine as it is, or enters it as idle and used once |
| `MachineScaling.Provider.Remove` | executors/docker/machine/provider.go:206-228 | Puts a known machine under removal and says whether it was known |
| `MachineScaling.Provider.UpdateMachines` | executors/docker/machine/provider.go:254-272 | The loop is the pass over the list, and its total is the number of listed machines |
| `MachineScaling.Provider.CreateMachines` | executors/docker/machine/provider.go:274-288 | Terminates with exactly the missing machines created, not one too many: enough available or the limit reached, and never above the limit by its own doing |
| `MachineScaling.Provider.ScalingPass` | executors/docker/machine/provider.go:315-319 | Afterwards Available >= IdleCount or Total >= Limit > 0, and listed <= Total <= max(listed, Limit) |
| `MachineHolds.RunKeepsInv` | executors/docker/machine/provider.go:33-401 | Every step of every thread, creation, removal and scaling keeps the invariants about table, holders, history and use |
| `MachineHolds.MachineLives` | executors/docker/machine/provider.go:33-401 | Every step moves every machine exactly as its life says: taken when tried idle, used with credentials, free again or removed when given up, removed when unreachable or not created; no step touches another machine |
| `MachineHolds.FreeMachineIsTaken` | executors/docker/machine/provider.go:105-121 | A machine tried is taken if it is idle or unknown, and passed over if it is busy |
| `MachineHolds.NothingFreeIsSkipped` | executors/docker/machine/provider.go:105-137 | Acquire ends without a machine, and useMachine creates one, only after every listed name was tried, the newest first, and was busy then or obtained and not reachable |
| `MachineHolds.OwnMachineIsUsed` | executors/docker/machine/provider.go:343-354 | A build uses the machine from Acquire if and only if it is still acquired and reachable |
| `MachineHolds.ObtainedIsUsed` | executors/docker/machine/provider.go:356-380 | A machine obtained and reachable is what Acquire returns or the build uses; with credentials the build runs on it |
| `MachineHolds.RemovalDeletes` | executors/docker/machine/provider.go:194-196 | A removal that ends takes the machine's own name out of the table and no other |
| `MachineHolds.ThreadNeverStuck` | executors/docker/machine/provider.go:300-401 | Every build can always take a step, or waits for a creation that can end |
| `MachineHolds.NoMachineHeldTwice` | executors/docker/machine/provider.go:33-58 | No machine is held by two builds nor twice by one; what is held is in the table, neither idle nor under removal |
| `MachineHolds.HoldsAlternate` | executors/docker/machine/provider.go:343-401 | In the history every machine is obtained only while nobody holds it and given up only by its holder; the history gives the current holders |
| `MachineHolds.RemovedOnce` | executors/docker/machine/provider.go:186-228 | At most one removal runs for a machine, and it deletes the machine's own entry |
| `MachineHolds.UsageWithinMaxBuilds` | executors/docker/machine/provider.go:374-399 | With MaxBuilds > 0 a created machine is never used more often, and an idle one has builds left exactly if it was created here or MaxBuilds is not 1; at worst there is one use too many |
| `MachineHolds.FoundMachineOverused` | executors/docker/machine/provider.go:44-47 | A reachable state in which a found machine has two uses with MaxBuilds 1 |
| `BuildStages.Build.ExecuteStage` | common/build.go:198-237 | Sets the current stage and ends as the executor decides |
| `BuildStages.Build.AttemptExecuteStage` | common/build.go:288-298 | Between one and `attempts` executions, all but the last failed, all used up if the last failed; out of [1, 10] an error and no execution |
| `BuildStages.Build.ExecuteUploadArtifacts` | common/build.go:239-245 | One upload, its kind chosen by the job's error |
| `BuildStages.Build.PrepareSources` | common/build.go:251-259 | The three retried stages, each only if all before succeeded |
| `BuildStages.Build.RunUserScript` | common/build.go:261-275 | User script with after_script, the cache only if the script succeeded |
| `BuildStages.Build.ExecuteScript` | common/build.go:247-286 | The executed stages fit the grammar of a script, with the result it prescribes |
| `BuildStages.ScriptIsDetermined` | common/build.go:239-298 | For every behaviour of the executor the grammar admits one run only, the one computed stage by stage |
| `BuildStages.StageCounts` | common/build.go:247-298 | Retried stages at most their attempts, after_script exactly as often as the user script, archiving only with it, exactly one upload, and it comes last |
| `BuildStages.RetriedStagesRun` | common/build.go:288-298 | Each retried stage runs exactly if the one before ended well and its attempts are in range; it stops at its first success and uses all attempts if there is none |
| `BuildStages.ResultFromLog` | common/build.go:277-285 | The flat log alone, without the numbers of attempts, gives the job's error, the upload that runs and the result |
| `BuildStages.UserScriptIffPrepared` | common/build.go:251-275 | The user script is attempted exactly if every earlier stage ended well; the cache is archived exactly if the user script then succeeded |
| `BuildStages.StagesInOrder` | common/build.go:247-286 | Stages never go back |
| `BuildRun.RunKeepsInv` | common/build.go:327-559 | Every step of Run and of the script's goroutine keeps the invariants about control, executors and reports |
| `BuildRun.ExecutorLivesInOrder` | common/build.go:371-400 | Every executor's history is in order at every moment: one Prepare, stages only after its success, Finish once and only after the script goroutine ended, Cleanup once and last; at most three executors |
| `BuildRun.DoneIsClean` | common/build.go:508-559 | At the end of Run every executor created is cleaned up, the prepared one after its Finish, and the trace was told one status, the one the error calls for |
| `BuildRun.NothingAfterCleanup` | common/build.go:343-369 | No step concerns an executor that was cleaned up |
| `BuildRun.OnlySystemErrorsAreRetried` | common/build.go:371-400 | A preparation is tried again only after a system error; a build error of Prepare is the build's own; without a prepared executor the build ends with it, with the context's error, after exactly three tries, or because no executor could be had |
| `BuildRun.NoRetryAfterContext` | common/build.go:385-393 | Once the context is over, no executor is created behind a preparation that failed |
| `BuildRun.SuccessMeansFinished` | common/build.go:343-369 | Success is reported if and only if the select took the script's own return and it was no error; a build that ends as finished is reported as its script's result calls for |
| `BuildRun.ReportNamesTheCause` | common/build.go:308-325 | A timeout is reported as such, an abort as a failure of the runner, a cancel as a failed script, and a build that never ran its script never as a success |
| `BuildRun.ReportFollowsSelect` | common/build.go:350-369 | What the trace is told follows from the branch of the select the run took: signal, end of the context, or the script's own result with its reason |
| `BuildRun.RunTerminates` | common/build.go:327-559 | Under every behaviour of provider, executor, script, context and signals Run has at most 41 steps beside the script's stages, and can go on until it is done |
| `ShellEscape.ShellEscape` | helpers/shell_escape.go:45-134 | The loop with its flag writes the escaped word |
| `ShellEscape.EscapeReadsBack` | helpers/shell_escape.go:45-134 | Bash reads the word as the original up to its first NUL, by section 3.1.2.4 of the Bash Reference Manual |
| `ShellEscape.RoundTripIffNulFree` | helpers/shell_escape.go:45-134 | The round trip holds for exactly the NUL-free strings |
| `ShellEscape.EscapeInjective` | helpers/shell_escape.go:45-134 | Distinct NUL-free strings get distinct words |
| `ShellEscape.LeftAsIsIff` | helpers/shell_escape.go:39-44 | A string is left as it is if and only if it is not empty and has only the bytes from comma to 9, from @ to Z, and underscore |
| `ShellEscape.PlainLeftAsIsIff` | helpers/shell_escape.go:99-118 | Of the strings that mean themselves to Bash, exactly those without a lower-case letter are left as they are |
| `ShellEscape.LowerCaseIsQuoted` | helpers/shell_escape.go:103-118 | The letter a needs no quotes and gets them |
| `ShellEscape.EscapePrintable` | helpers/shell_escape.go:39-44 | The word is one line of printable ASCII for all inputs |
| `ShellEscape.FormOfByte` | helpers/shell_escape.go:82-123 | What is written for each byte: itself, with a backslash, a letter for tab and line ends, or two hexadecimal digits |
| `Time.RoundDurationIsSaturatedNearest` | common/time.go:21-49 | For all 64-bit d and m > 0 there is a nearest multiple of m, ties away from zero, and the result is that multiple, saturated |
| `Time.NearestUnique` | common/time.go:21-43 | The nearest multiple, ties away from zero, is unique |
| `Time.HalfIsExact` | common/time.go:45-49 | The unsigned comparison says whether twice the remainder is below m, without overflow |
| `Decimal.AtoiOfItoa` | network/patch_response.go:18-19 | A numeral is read back as its number, saturated at the largest int |

## Left out

- HTTP, TLS, JSON, metrics, logging and back-off: input and output around the modelled logic.
- Clocks: ticks, timeouts and staleness are actions that may happen at any time, or parameters.
- UTF-8: a rune is the one to four bytes written for it; reads of runes that fail are given as such.
- The trie library: `Search` is the set of stored keys that start with the given text, and an empty value is not stored.
- Order of configuration in the buffer: `SetMasked` while text is pending, and `SetLimit` after the first write, are not covered by `LogIsTokenImage` and what follows from it; `PublishedIsFinal`, `NothingLost` and `LogLengthBounded` hold for every order of `SetMasked`.
- The coordinator is assumed truthful: 202 only for a patch that it appended, and 416 with the stored length or without a range. Every other status and job state may come with any patch.
- TraceProtocol.WatcherMayReportEarly: a terminal state may precede the full trace; `WatcherUpdateCompleteIff` says exactly when the watcher's does.
- TraceProtocol.FinalTraceIsComplete: nothing is said about the stored trace after an abort or not-found answer, because finalTraceUpdate then returns early.
- TraceClient.ClientJobTrace.SendPatch: needs a positive maxTracePatchSize, because with zero the program sends nothing for ever.
- network/trace.go, commands/multi.go, the holders in provider.go and executor.go, and Run in common/build.go are step systems on values and not classes: their methods interleave inside one call, which a Dafny method cannot express. Aliasing of their objects is not captured.
- Configuration: each runner token has one fixed configuration; reloading, and a Concurrent below 1, which ends the process, are not modelled.
- WorkerPool.RunnerIDsAreDistinctAndBounded: the docker-machine executor resets ProjectRunnerID to 0, which is not modelled.
- MachineHolds: the three attempts of retryUseMachine are any number of attempts; the check for an idle machine in updateMachine and the following remove are one step; names of new machines are fresh; one machine configuration per provider.
- MachineScaling.Provider.ScalingPass: no global cap on machines, because useMachine creates without looking at the limit; the bound is per pass. All times of one pass are one time.
- Retries and waiting in create and removeMachine: only their success or failure is modelled.
- BuildStages.Build.ExecuteStage: generating the shell script is part of what the executor decides; a stage without a script counts as an execution that succeeds.
- Terminals and sessions: waiting for a terminal is one step that does not change the build's error.
- ShellEscape.EscapeReadsBack: the reader covers bare, '...' and $'...' words; the \u and \U forms of section 3.1.2.4, which ShellEscape never writes, are not read.
- The other executors, quoting for cmd and PowerShell, caches, artifacts, registration and the command line: they would add easier members only.
