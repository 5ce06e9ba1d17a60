# Verified model of the grading-job queue

The execution service keeps a queue of grading jobs in Postgres. Several actors change it at the
same time: the submit and cancel endpoints, dispatchers that claim jobs by highest response ratio
(HRRN) and run them in pods, a sweep that fails jobs running past their timeout, a webhook
deliverer with a retry loop, and a retention job. This project models these actors in Dafny and
proves what holds in every run. It does so at two levels: at the level of whole calls every service
call is one step; at the finer level `markCompleted`, `markFailed` and `cancelJob` read first and
write later, and anything may happen in between. To verify: `dafny verify dfyconfig.toml`.

## How it is organised

| module | what it is about |
|---|---|
| `Basics`, `JobTables`, `RollingAverage` | rows of `jobs`, `job_results`, `image_configs`; what each call writes to one row; the rolling average as a true mean |
| `Lifecycle`, `LifecycleRuns` | the queue as a state machine in which every service call is one atomic step; its invariant; absorption, bounds and termination over whole runs |
| `JobStore` | the service calls as methods that update tables and directories in place, each proved to be its step of the state machine; whatever is called, the ghost history replays to the tables |
| `SubmittedFiles` | which jobs have their submitted files, exactly |
| `StaleSnapshots`, `StaleRuns`, `StaleStatus`, `StaleAttempts`, `StaleScenarios` | the finer level, where a call reads first and writes only the changed columns later: what survives every interleaving, what does not, exactly when, and runs that show it |
| `HrrnOrder`, `Overtaking`, `Starvation` | the order given by the score over time; how often a pending job can be overtaken, at the finer level; permanent overload |
| `QueuePosition`, `ConcurrentClaims` | the two reported positions, and claims with `FOR UPDATE SKIP LOCKED` by many workers |
| `TimeoutSweep`, `PodPolling` | sweeps that proceed row by row among the other actors, at the finer level; the polling loop for one pod |
| `CallbackDelivery`, `CallbackCap` | any number of deliverers that check, post and commit under a row lock; the retry loop and its maximum |
| `DispatcherRun`, `DispatcherLoop` | one run of a claimed job with every external call free to throw; the capacity loop with `stop` |
| `Utf8Truncation`, `ArchiveNames`, `ZipExtraction`, `PayloadMove` | cutting logs to a number of bytes, unpacking an archive, moving the payload file |

A late call from an abandoned run is just another step, so every statement about all runs covers it.
What other modules say about the job tables, they say of whole calls.

## What turned out differently from what one might expect

- A cancelled job never gets `completed_at` from whole calls, so the retention query, which asks for
  cancelled jobs too, never removes one (`PurgeIsExact`). At the finer level a late cancellation can
  leave a completion time in the row (`CancelledIsPurged`).
- `cancelled` is not final. For whole calls exactly a failure reported late, by a run that the sweep
  had given up, takes a job out of it (`CancelledLeavesIff`, `StaysCancelledIff`);
  `CancelledJobRunsAgain` is a run after which the cancelled job is pending. At the finer level a
  completion that read the job earlier does so too (`CancelledSurvivesIff`, `CancelledJobCompletes`).
- `completed` is final for whole calls (`TerminalAbsorbs`) but not at the finer level:
  `CompletedSurvivesIff` says exactly which pending writes undo it, `FinalStaysIff` says so over runs
  and for all three final statuses, and `LateFailureUndoesCompletion` is a run after which a job is
  pending, has a result, and over no further run completes.
- A processing job can lose its start time at the finer level, and then no sweep sees it
  (`StartTimeLostIff`, `StartedThroughoutIff`, `ProcessingWithoutStart`, `StartlessIsNeverSwept`).
  Every other processing job is dealt with in time (`ProcessingIsBounded`).
- At the finer level the retry limit bounds the column `retry_count` but not the attempts:
  `AttemptsAreBounded` says by how much overtaken failures can exceed it, and
  `OvertakenFailureAddsAClaim` is a run in which one does.
- `docs/ARCHITECTURE.md:141` says HRRN prevents starvation. Under permanent overload it does not:
  `LongJobStarves` gives, for every n, a run in which n - 1 later jobs are claimed and completed, one
  at a time and each within a second, and the first job is not claimed. What does hold:
  a job is claimed next exactly when every other pending job has waited less than a known share of
  its own wait (`ClaimedNextIff`), and only jobs submitted by a cutoff can overtake it, each at most
  once per attempt, where failures at the finer level can add attempts (`OvertakingsAreBounded`).
- The maximum number of callback attempts can be exceeded, by one, when the immediate delivery of a
  completed job overlaps the retry loop: `OneBeyondMaxAtMost` is the bound for one retry loop,
  `OverlapExceedsMax` reaches it for every maximum, and `RetryCap` is the bound for any number of
  deliverers.
- An image whose recorded runtimes are all zero refuses every further submission
  (`RefusedForRuntimeIff`, `ZeroRuntimeBlocksImage`).
- A run cleans up the submission directory even when its job has just been queued again, so the
  retry is pending without the submitted files (`FailRun`, `RetryWithoutFiles`). A job has its files
  exactly when, since its upload, no run of it has ended and it was not cancelled (`FilesThereIff`).
- When `markCompleted` throws after its commit, the job is completed but its payload is removed
  (`ThrownCompletionStands`, `CompleteRun`).
- Truncated text can be one or two bytes longer than the limit, when one or two bytes of a
  code point were left over (`TruncateResult`, `TruncateCanOverrun`).
- A stored payload can be downloaded only if no payload of another name was left by an earlier run
  of the same job (`StoredPayloadIsFoundIff`, `TwoPayloadsHideEachOther`).

## Model

| member | source | states |
|---|---|---|
| Lifecycle.StepKeepsInv | execution-service/app/services/job_lifecycle_service.ts:112-457 | any enabled step of any actor keeps the invariant of the tables: rows, retry limits, claims, results, completion history and image statistics |
| Lifecycle.RunKeepsInv | execution-service/app/services/job_lifecycle_service.ts:308-457 | the invariant holds after every run, including late calls of abandoned runs |
| Lifecycle.CompletedKeeps | execution-service/app/services/job_lifecycle_service.ts:370-412 | the completion transaction keeps rows, history and the mean of each image consistent, or changes nothing |
| Lifecycle.FailedKeeps | execution-service/app/services/job_lifecycle_service.ts:425-457 | a failure keeps the invariant, changes no table but `jobs` and no row but its own |
| LifecycleRuns.EveryReachableRow | execution-service/app/services/job_lifecycle_service.ts:308-457 | in every reachable state: a result row iff completed, a start time while processing and when completed, submission <= start <= finish <= now, a finish time iff completed or failed, failed has used all retries, an error message iff failed, claims + pending <= 1 + retryCount <= 1 + max |
| LifecycleRuns.TerminalAbsorbs | execution-service/app/services/job_lifecycle_service.ts:365-436 | over any run of whole steps completed and failed stay so until deletion, a completed row keeps everything but pod name and path, and its result row is never replaced |
| LifecycleRuns.GoneStaysGone | execution-service/app/services/job_lifecycle_service.ts:358-363 | no call on a deleted job brings it back, over any run |
| LifecycleRuns.IdentityNeverChanges | execution-service/app/services/job_lifecycle_service.ts:441-446 | retries keep submission time, estimate, image and callback URL; the retry count only grows |
| LifecycleRuns.CancelledLeavesIff | execution-service/app/services/job_lifecycle_service.ts:308-317 | when calls are whole steps: a cancelled job that is still there stays cancelled through a step iff the step is not a failure reported for it |
| LifecycleRuns.StaysCancelledIff | execution-service/app/services/job_lifecycle_service.ts:433-446 | over any run of whole steps a cancelled job was cancelled all along iff no failure was reported for it |
| LifecycleRuns.CancelledJobRunsAgain | execution-service/app/services/job_lifecycle_service.ts:433-446 | a run from an empty database in which the sweep requeues a job, the user cancels it, and the late failure of its first run makes it pending again |
| LifecycleRuns.MovesWithinBudget | execution-service/app/services/job_lifecycle_service.ts:425-457 | over any run a job changes status or retry count at most 2*(max - retryCount) + rank times |
| LifecycleRuns.SubmittedJobSettles | execution-service/app/services/job_lifecycle_service.ts:112-168 | a submitted job moves at most 2*max_retries + 2 times, however long the run |
| LifecycleRuns.PurgeIsExact | execution-service/app/services/cleanup_service.ts:9-34 | when calls are whole steps, retention removes exactly the jobs completed or failed before the cutoff, with their results, changes no other, and never removes a cancelled one |
| LifecycleRuns.CompletionOutlivesRetention | execution-service/app/services/cleanup_service.ts:11-27 | for whole calls: a completion committed at t is there after every run in which retention keeps to cutoffs of at most t, with its finish time t, runtime and report |
| LifecycleRuns.OthersAreUntouched | execution-service/app/services/job_lifecycle_service.ts:308-457 | a step on one job leaves every other job's row, result, claims and upload as they were |
| LifecycleRuns.ClaimTakesBest | execution-service/app/services/strategies/hrrn_strategy.ts:9-24 | a claim takes a pending unlocked row with the highest score and records that score, the worker and the time |
| LifecycleRuns.RefusedForRuntimeIff | execution-service/app/services/job_lifecycle_service.ts:141-152 | with non-negative runtimes an active image refuses for its runtime iff it has completions and all took zero time |
| LifecycleRuns.ZeroRuntimeBlocksImage | execution-service/app/services/job_lifecycle_service.ts:141-152 | a run whose only completion took no time, after which an image with a positive default refuses |
| LifecycleRuns.EstimateWithinHistory | execution-service/app/services/job_lifecycle_service.ts:141-152 | if all recorded runtimes lie in a positive interval, submissions are accepted with an estimate in that interval |
| LifecycleRuns.ReachableAverages | execution-service/app/services/job_lifecycle_service.ts:399-411 | in every reachable state an image's count and average are those of exactly its completions |
| LifecycleRuns.ScoresAgree | execution-service/app/services/job_lifecycle_service.ts:82-87 | in every reachable state the displayed score equals the scheduler's and is at least 1 |
| RollingAverage.RecordKeepsStats | execution-service/app/services/job_lifecycle_service.ts:401-411 | the SQL update turns the true mean and count into the true mean and count with one more runtime, for its image only |
| RollingAverage.AverageIsMean | execution-service/app/services/job_lifecycle_service.ts:401-411 | from a new image any sequence of completions leaves exactly their mean and number |
| RollingAverage.AverageIgnoresOrder | execution-service/app/services/job_lifecycle_service.ts:401-411 | the stored average does not depend on the order of completion |
| RollingAverage.AverageWithinBounds | execution-service/app/services/job_lifecycle_service.ts:401-411 | the average lies between the least and the greatest recorded runtime |
| RollingAverage.AverageVanishesIff | execution-service/app/services/job_lifecycle_service.ts:401-411 | with non-negative runtimes the average is zero iff all of them are |
| JobStore.JobStore.InvHolds | execution-service/app/services/job_lifecycle_service.ts:77-458 | whatever sequence of the class's calls has been made, adding and editing images included, the tables satisfy the invariant |
| SubmittedFiles.StepKeepsFiles | execution-service/app/services/job_lifecycle_service.ts:155-173 | every step keeps that a job waiting for its first run, its upload done, has its files |
| SubmittedFiles.FilesThereIff | execution-service/app/services/dispatcher_service.ts:242-245 | in every state a run can reach a job has its files iff its upload has finished and since then no run of it has ended and it has not been cancelled |
| JobStore.JobStore.FilesHold | execution-service/app/services/dispatcher_service.ts:242-245 | the same of the object's directories after any sequence of its calls |
| JobStore.JobStore.AddImage | execution-service/app/services/image_config_service.ts:49-72 | a new image is active and without statistics; exactly the AddImage step, or none if the key is taken |
| JobStore.JobStore.EditImage | execution-service/app/services/image_config_service.ts:74-105 | exactly the EditImage step with the timeout, default and activity that are given; what is not given and the statistics stay |
| JobStore.JobStore.CreateJob | execution-service/app/services/job_lifecycle_service.ts:112-168 | each refusal exactly in its case, in the order of the checks; otherwise one more pending row with a fresh id, the image's average or else its default as estimate, and nothing else |
| JobStore.JobStore.StoreFiles | execution-service/app/services/job_lifecycle_service.ts:170-173 | exactly the FinishUpload step with the files there, or, if storing or saving failed, the removal of row and files |
| JobStore.JobStore.ReplyToSubmission | execution-service/app/services/job_lifecycle_service.ts:175-196 | after whatever else has been called in between: the number of better pending jobs plus one, or the removal of row and files |
| JobStore.JobStore.CancelJob | execution-service/app/services/job_lifecycle_service.ts:308-326 | not found, conflict or cancelled; the directory goes only with a cancellation; exactly the Cancel step |
| JobStore.JobStore.DequeueNext | execution-service/app/services/strategies/hrrn_strategy.ts:6-31 | claims an unlocked pending row of highest score, which becomes processing since now, with worker and score recorded; or returns null only if every pending row is locked |
| JobStore.JobStore.RecordPod | execution-service/app/services/dispatcher_service.ts:208-209 | writes the pod name into the row whatever its status by then |
| JobStore.JobStore.MarkCompleted | execution-service/app/services/job_lifecycle_service.ts:357-423 | completes a processing job only, with finish time now and the runtime, stores its report, touches no other image, and asks for a delivery iff there is a URL |
| JobStore.JobStore.MarkFailed | execution-service/app/services/job_lifecycle_service.ts:425-457 | null iff the job is missing or completed; otherwise its row, queued again or failed with its message now, as the retries of its image decide; no other row changes |
| JobStore.JobStore.CleanupOldJobs | execution-service/app/services/cleanup_service.ts:9-43 | removes exactly the completed, failed or cancelled rows with a finish time before the cutoff, their results and their directories, counts them, and leaves the rest as it is |
| JobStore.JobStore.CompleteRun | execution-service/app/services/dispatcher_service.ts:275-296 | the end of a successful run, whether the completion returns or throws before or after its commit: when the job is completed, when requeued, what becomes of the payload; the files are removed in any case |
| JobStore.JobStore.FailRun | execution-service/app/services/dispatcher_service.ts:219-245 | the end of a failed run: if the job is queued again it is pending with its source path, but without its files |
| JobStore.RetryWithoutFiles | execution-service/app/services/dispatcher_service.ts:242-245 | from an empty store, calls after which a job waits for its second run without its files |
| JobStore.JobStore.DetectStuckJobs | execution-service/app/services/timeout_service.ts:9-46 | with nothing in between: every row that changed had been processing for more than its image's timeout + 30 seconds, every row that had when the sweep began has changed, and the count is the number of changed rows |
| JobStore.PickTop | execution-service/app/services/strategies/hrrn_strategy.ts:16-19 | the head of the pending rows in descending order of score |
| TimeoutSweep.SweptLeavesNoneStuck | execution-service/app/services/timeout_service.ts:18-38 | after an uninterrupted sweep no processing job had run for more than timeout + 30 seconds when it began, and whatever changed had by its end |
| TimeoutSweep.LateWasLate | execution-service/app/services/timeout_service.ts:18-38 | no step of anybody, stale writes included, makes a job late for a sweep: a late spell was late before |
| TimeoutSweep.WriteKeeps | execution-service/app/services/timeout_service.ts:35 | the failure that the sweep writes, however long after it read the row, ends the spell that was listed |
| TimeoutSweep.SweepSparesTheYoung | execution-service/app/services/timeout_service.ts:27-35 | in every timed run a sweep turns to failing a listed job iff the listed spell is older than timeout + 30 seconds at that moment and the job is there and not completed |
| TimeoutSweep.OnlyWritesFail | execution-service/app/services/timeout_service.ts:18-38 | a sweep's steps change no row but by such a write |
| TimeoutSweep.ProcessingIsBounded | execution-service/app/services/timeout_service.ts:9-46 | in every timed run, with sweeps interleaved row by row with everybody else, possibly abandoned, and all reads and writes apart, no spell of a processing job with a start time is longer than timeout + 30 + period |
| TimeoutSweep.EveryProcessingIsBounded | execution-service/app/services/timeout_service.ts:9-46 | as long as no write takes a start time, which is never the case for whole calls, the same holds for every processing job |
| TimeoutSweep.StartlessIsNeverSwept | execution-service/app/services/timeout_service.ts:11-14 | a job without a start time is on no sweep's list |
| StaleSnapshots.BackToBackIsAtomic | execution-service/app/services/job_lifecycle_service.ts:308-457 | a write that directly follows its read is the atomic step |
| StaleSnapshots.FailWriteIsMerge | execution-service/app/services/job_lifecycle_service.ts:441-452 | a stale failure writes exactly the columns in which what it makes of the row it read differs from that row |
| StaleSnapshots.CommitKeepsSound | execution-service/app/services/job_lifecycle_service.ts:370-454 | any stale write, of any age, keeps retry limits, result rows and image statistics right |
| StaleSnapshots.RunKeepsSound | execution-service/app/services/job_lifecycle_service.ts:357-457 | the same over every interleaving of reads, writes and whole steps |
| StaleSnapshots.AnyInterleavingIsSound | execution-service/database/migrations/1772620800005_create_job_results_table.ts:9-15 | from an empty database: at most one completion per job, result rows iff completions, counts and means exact, retries within the limit |
| StaleSnapshots.CompletedSurvivesIff | execution-service/app/services/job_lifecycle_service.ts:370-454 | exactly which pending writes leave a completed row completed |
| StaleSnapshots.CancelledSurvivesIff | execution-service/app/services/job_lifecycle_service.ts:370-454 | exactly which pending writes leave a cancelled row cancelled; a completion that read the row earlier takes it out |
| StaleSnapshots.StartTimeLostIff | execution-service/app/services/job_lifecycle_service.ts:441-446 | a failing write takes the start time from a processing row iff it has retries left and read the row as pending with a start time |
| StaleStatus.FinalStaysIff | execution-service/app/services/job_lifecycle_service.ts:308-457 | over any interleaving a completed, failed or cancelled job had this status all along iff every write committed to it spares the status, a matter of what the writer had read |
| StaleStatus.StartedThroughoutIff | execution-service/app/services/job_lifecycle_service.ts:441-446 | over any interleaving every processing row has its start time all along iff no failing write of that kind is committed |
| StaleStatus.PunctualLosesNoStart | execution-service/app/services/job_lifecycle_service.ts:441-446 | it is enough that every failing write finds the status it has read |
| StaleStatus.CompletionOutlivesRetention | execution-service/app/services/cleanup_service.ts:11-27 | at the finer level: a completion committed at t has this finish time, and over any later interleaving retention with cutoffs of at most t does not remove the job |
| StaleScenarios.CancelledJobCompletes | execution-service/app/services/job_lifecycle_service.ts:365-375 | a run from an empty database in which a job is requeued by the sweep, cancelled, and then completed by a write that had read it before |
| StaleScenarios.CancelledIsPurged | execution-service/app/services/job_lifecycle_service.ts:308-317 | a run after which a cancelled row has a completion time and retention removes it |
| StaleScenarios.ProcessingWithoutStart | execution-service/app/services/job_lifecycle_service.ts:441-446 | a run after which a job is processing without a start time and no call is under way |
| StaleRuns.NeverCompletesAgain | execution-service/database/migrations/1772620800005_create_job_results_table.ts:9-15 | a job whose completion was undone has its result and, over any run, is not completed while its row is there |
| StaleRuns.LateFailureUndoesCompletion | execution-service/app/services/job_lifecycle_service.ts:425-457 | a run from an empty database, of a completion and a failure that both read a processing job, after which the job is pending with its result and never completes |
| StaleAttempts.AttemptsAreBounded | execution-service/app/services/job_lifecycle_service.ts:441-446 | from an empty database, whatever interleaves: claims + pending <= 1 + retryCount + the retries that overtaken failures had missed, and these are at most max for each such write |
| StaleAttempts.OvertakenFailureAddsAClaim | execution-service/app/services/job_lifecycle_service.ts:441-446 | a run in which two failures of one spell with a claim in between exceed the bound of the atomic level |
| HrrnOrder.ScoreOrder | execution-service/app/services/strategies/hrrn_strategy.ts:18 | scores compare as cross-multiplied waits and estimates |
| HrrnOrder.EqualEstimatesAreFifo | execution-service/app/services/strategies/hrrn_strategy.ts:18 | with equal estimates the order is that of submission |
| HrrnOrder.OrderFlipsAtMostOnce | execution-service/app/services/strategies/hrrn_strategy.ts:18 | over any run, retries included, a shorter job once level with a longer one stays level or ahead |
| HrrnOrder.ClaimedNextIff | execution-service/app/services/strategies/hrrn_strategy.ts:16-19 | a job must be the next one claimed iff every other pending job has waited less than a share of its wait given by the estimates |
| HrrnOrder.OvertakersHaveWaited | execution-service/app/services/strategies/hrrn_strategy.ts:16-19 | with estimates of at least m, whoever is claimed ahead of j has waited at least m/S_j of j's wait |
| HrrnOrder.AgedJobIsNext | execution-service/app/services/strategies/hrrn_strategy.ts:16-19 | a job is next once every other has waited less than that |
| Overtaking.OvertakerIsEarly | execution-service/app/services/strategies/hrrn_strategy.ts:16-19 | whoever is claimed ahead of j by time t was submitted by the cutoff t - (t - submitted_j)*m/S_j |
| Overtaking.AtMostOncePerAttempt | execution-service/app/services/strategies/hrrn_strategy.ts:9-24 | over any interleaving from an empty database a set of jobs overtakes j at most 1 + max times each, deleted jobs included, plus the retries that overtaken failures had missed, of which there are none when calls are not interrupted |
| Overtaking.OvertakingsAreBounded | execution-service/app/services/strategies/hrrn_strategy.ts:9-24 | over any interleaving every overtaking of j is by a job submitted by the cutoff, so their number is at most that of the early jobs times that bound |
| Starvation.ShortJobIsNext | docs/ARCHITECTURE.md:141 | under permanent overload the only job that can be claimed is a short one, every second |
| Starvation.LongJobStarves | docs/ARCHITECTURE.md:141 | for every n a run from the empty database in which n - 1 later jobs are claimed and completed, never two at a time and none for more than a second, and the first is not claimed |
| QueuePosition.RankingIsClaimOrder | execution-service/app/services/queue_service.ts:75-81 | any order the query may return is one in which the scheduler can claim the jobs |
| QueuePosition.ClaimPlace | execution-service/app/services/job_lifecycle_service.ts:89-106 | in any sequence of claims at one instant a job's place is its counting rank, give or take its ties |
| QueuePosition.RanksAgreeUpToTies | execution-service/app/services/queue_service.ts:83-85 | counting rank <= sorting rank <= counting rank + ties |
| QueuePosition.PositionIsClaimOrder | execution-service/app/services/queue_service.ts:75-86 | with distinct scores both ranks are the number of dequeues that come first, exactly |
| QueuePosition.CountJobsAhead | execution-service/app/services/job_lifecycle_service.ts:89-106 | the number of other pending jobs that score strictly more, zero for a missing row |
| QueuePosition.DescribeStanding | execution-service/app/services/job_lifecycle_service.ts:328-351 | null iff missing, otherwise position, wait, score and number of pending jobs of three queries between which the tables may change; a pending job's position is within that number if they do not |
| QueuePosition.GetQueuePosition | execution-service/app/services/queue_service.ts:57-95 | not found, not pending, or the position in the rows sorted by a later query, bounded by counting rank and ties; 0 iff the job has left the queue in between |
| ConcurrentClaims.NeverHeldTwice | execution-service/app/services/strategies/hrrn_strategy.ts:9-28 | in no run do two workers hold one job, and a held job is pending |
| ConcurrentClaims.OneClaimPerSpell | execution-service/app/services/strategies/hrrn_strategy.ts:9-28 | a job is claimed at most once each time it is made pending |
| ConcurrentClaims.ClaimsAreTheTop | execution-service/app/services/strategies/hrrn_strategy.ts:16-20 | n workers at one instant, in any interleaving, claim exactly min(n, pending) different jobs, a top set by score |
| CallbackDelivery.LogsStayOk | execution-service/app/services/callback_service.ts:55-193 | in every interleaving of deliverers each log is numbered 1..n, a success is an entry with a status from 200 to 299, only the last entry can be one, delivered iff there is one, and texts have at most 1000 characters |
| CallbackDelivery.StepLogs | execution-service/app/services/callback_service.ts:133-177 | a step adds to a job's log iff it commits an attempt before the job was delivered, and then the entry has the URL, status and beginning of the text of that POST |
| CallbackDelivery.BecomesDeliveredIff | execution-service/app/services/callback_service.ts:120-176 | a step makes a job delivered iff it commits a response with a status from 200 to 299 |
| CallbackDelivery.PostsIff | execution-service/app/services/callback_service.ts:63-78 | a POST begins iff the check finds a URL that is allowed, a result, and no delivery yet |
| CallbackDelivery.DeliveredIsFinal | execution-service/app/services/callback_service.ts:150-153 | once delivered nothing more is logged for the job |
| CallbackCap.RetryCap | execution-service/app/services/callback_service.ts:195-230 | with at most D deliverers in flight for a job, logged + in flight <= max - 1 + D in every reachable state |
| CallbackCap.LoneLoopStaysWithinMax | execution-service/app/services/callback_service.ts:195-230 | one deliverer at a time never logs more than the maximum |
| CallbackCap.OneBeyondMaxAtMost | execution-service/providers/callback_provider.ts:32-44 | with one retry loop whose passes do not overlap, and any immediate deliveries, no log has more than max + 1 entries |
| CallbackCap.OverlapExceedsMax | execution-service/app/services/job_lifecycle_service.ts:414-420 | for every maximum a run from the empty database, with passes that do not overlap, in which the immediate delivery overlaps them and max + 1 attempts are logged |
| CallbackDelivery.LonePassIsRetried | execution-service/app/services/callback_service.ts:217-229 | the protocol run by one deliverer alone does to a job what the retry loop's method does |
| CallbackDelivery.RetriedStaysWithinMax | execution-service/app/services/callback_service.ts:217-229 | one pass keeps the log well-formed and within the maximum, and changes a job iff it is due, allowed and below the maximum |
| CallbackDelivery.CallbackService.DeliverResult | execution-service/app/services/callback_service.ts:55-193 | a job with an allowed URL, a result and no delivery yet gets one more entry that says what came back, and is delivered iff that was a status from 200 to 299; nothing else changes |
| CallbackDelivery.CallbackService.RetryPendingCallbacks | execution-service/app/services/callback_service.ts:195-230 | one pass gives every completed, undelivered job with a URL and fewer attempts than the maximum one delivery and leaves every other as it is |
| DispatcherRun.RunJob | execution-service/app/services/dispatcher_service.ts:182-246 | whatever throws: the submission is cleaned once and last, the pod deleted iff created and not kept, an extracted payload removed iff the completion threw; the steps come in their order; which lifecycle calls are made, in terms of what went wrong; and each carries the score, seconds, pod, payload, logs, code or exit code that was found |
| DispatcherRun.HandleSuccessfulRun | execution-service/app/services/dispatcher_service.ts:252-296 | the calls after a successful pod, and when it throws |
| DispatcherRun.HandleFailedRun | execution-service/app/services/dispatcher_service.ts:298-305 | the failure reported for a failed pod, with its exit code and the cut logs |
| DispatcherRun.RunSettlesJob | execution-service/app/services/dispatcher_service.ts:211-225 | once a lifecycle call of the run takes effect, a job that was processing is completed with the score, logs, payload and seconds found, queued again or failed, as its retries decide |
| DispatcherRun.ThrownCompletionStands | execution-service/app/services/dispatcher_service.ts:290-295 | when `markCompleted` throws after its commit, the failure reported next comes to nothing, and the completed job names a payload that the run has removed |
| DispatcherRun.LogsAreCutOnce | execution-service/app/services/dispatcher_service.ts:282-303 | stored and quoted logs are single cuts of the pod's logs |
| DispatcherLoop.StepKeepsInv | execution-service/app/services/dispatcher_service.ts:157-176 | the in-flight set grows only by one claimed job when active + in flight is below the maximum read in that iteration |
| DispatcherLoop.CapacityHolds | execution-service/app/services/dispatcher_service.ts:102-176 | in every run at most the largest maximum in force are in flight, at most one job is claimed after `stop`, and the loop ends only after it |
| DispatcherLoop.EndedClaimsNothing | execution-service/app/services/dispatcher_service.ts:132-151 | an ended loop never claims again |
| DispatcherLoop.DispatcherService.StaysWithin | execution-service/app/services/dispatcher_service.ts:102-176 | whatever sequence of the object's methods has run, at most the largest maximum in force are in flight and at most one job was claimed after `stop` |
| DispatcherLoop.DispatcherService.OnDequeued | execution-service/app/services/dispatcher_service.ts:161-175 | a claimed job is one more in flight, and active + in flight is still within the maximum read, although jobs have finished in between |
| PodPolling.WaitForJobCompletion | execution-service/app/services/k8s_service.ts:285-342 | success iff a poll says so before timeout + 60 seconds are over; otherwise the exit code of the failed pod, -1 for a missing one, or deletion and 124; durations are never negative; at most (timeout + 61) / 2 polls |
| Utf8Truncation.DecodeEncode | execution-service/app/services/dispatcher_service.ts:328 | encoding and decoding returns the text with unpaired surrogates replaced |
| Utf8Truncation.EncodingIsUtf8 | execution-service/app/services/dispatcher_service.ts:328 | the encoder follows the table of section 3 of RFC 3629: number of bytes, ranges, and what they add up to |
| Utf8Truncation.DecodesOnlyEncodings | execution-service/app/services/dispatcher_service.ts:328 | the decoder accepts nothing but such encodings: no overlong forms, no surrogates, nothing past U+10FFFF |
| Utf8Truncation.TruncateResult | execution-service/app/services/dispatcher_service.ts:325-329 | text that fits is kept; a cut keeps a prefix of whole code points plus at most one U+FFFD, and exceeds the limit, by at most 2 bytes, iff one or two bytes were left over |
| Utf8Truncation.TruncateCanOverrun | execution-service/app/services/dispatcher_service.ts:325-329 | a two-byte character cut to one byte takes three |
| Utf8Truncation.TruncateComposes | execution-service/app/services/k8s_service.ts:415-418 | cutting to M and then to m <= M bytes is cutting to m bytes |
| Utf8Truncation.LogCuts | execution-service/app/services/dispatcher_service.ts:282-300 | the second cut of a successful run's logs changes nothing, that of a failed run's is a single cut to 2 KB |
| ArchiveNames.SplitJoin | execution-service/app/services/file_service.ts:686 | splitting a name at its slashes is what undoes joining |
| ArchiveNames.UnsafeIff | execution-service/app/services/file_service.ts:680-687 | a name is refused iff it has a NUL, a backslash, a leading slash or drive, or two dots alone between slashes or ends, said without splitting it |
| ArchiveNames.ClientNameIff | execution-service/app/services/file_service.ts:137-153 | an upload's name is accepted iff it is one path segment, not ".", without two dots in a row |
| ArchiveNames.NameIsItsPath | execution-service/app/services/file_service.ts:698 | a name whose segments are neither empty nor "." is its own path |
| ZipExtraction.ContainmentFiresIff | execution-service/app/services/file_service.ts:698-701 | for a name that passed the other checks the containment check fails iff all its segments are empty or "."; else the target is strictly under the destination |
| ZipExtraction.ExtractEntry | execution-service/app/services/file_service.ts:662-734 | an entry is written iff the list stays admissible, at its normalised path with its bytes; each error occurs exactly when its check is the first to fail |
| ZipExtraction.CopyStream | execution-service/app/services/file_service.ts:717-728 | the copy succeeds iff the running total stays within the limit, and then has all bytes |
| ZipExtraction.ContentNext | execution-service/app/services/file_service.ts:717-730 | an entry's content is its chunks one after the other |
| ZipExtraction.ExtractZip | execution-service/app/services/file_service.ts:641-740 | extraction succeeds iff the archive is readable throughout and admissible, said without the order of work; then every entry whose name does not end in a slash is at its path with its bytes, there is nothing else that is new, and nothing is lost |
| ZipExtraction.NextFits | execution-service/app/services/file_service.ts:703-715 | after an admissible beginning an entry can be created iff it collides with nothing in the tree and no earlier entry |
| ZipExtraction.UnpackedFiles | execution-service/app/services/file_service.ts:641-740 | unpacked files are at different, new places below the destination |
| ZipExtraction.UnpackedTree | execution-service/app/services/file_service.ts:705-715 | unpacking leaves a proper tree: no file is a directory, every file lies in directories |
| ZipExtraction.StoreArchive | execution-service/app/services/file_service.ts:503-551 | succeeds iff the upload is within its limit and valid, its name proper and free, and the archive readable and admissible beside itself; then every file entry is there with its bytes, nothing else is new, and the archive is gone; after a failure the whole directory is, unless the upload was too large |
| PayloadMove.ChoiceIsLargest | execution-service/app/services/file_service.ts:361-380 | the chosen file has maximal size among the candidates, and one is chosen iff there is one |
| PayloadMove.ChoiceIsFirst | execution-service/app/services/file_service.ts:379-380 | of several largest candidates the one listed first is chosen, as the sort is stable |
| PayloadMove.ExtractPayloadFile | execution-service/app/services/file_service.ts:349-462 | succeeds iff there is a readable file other than results.json, the largest is within the size limit and the lengths 255 and 500, and the move works; then that file is only at its destination with its bytes; otherwise the output directory is unchanged, also through the copy fallback |
| PayloadMove.GetPayloadFile | execution-service/app/services/file_service.ts:469-483 | finds a payload iff the directory holds exactly one file |
| PayloadMove.StoredPayloadIsFoundIff | execution-service/app/services/file_service.ts:469-483 | a payload just stored is found iff the directory held no file of another name |
| PayloadMove.TwoPayloadsHideEachOther | execution-service/app/services/file_service.ts:469-483 | two payloads of different names are stored, and none is found |

## Left out

- HTTP: controllers, routes, authentication, validators and serializers are plumbing around these calls.
- Kubernetes: the manifest and the API client are replaced by the outcomes a call can have; the decision of one poll is taken as given.
- Postgres, Lucid and the file system: maps, row locks, the UNIQUE and cascade constraints, and saves of changed columns. Removing files is assumed to work, and so are the queries of a call, except where a failing one is modelled (dispatcher runs, sweeps, payload moves, archives).
- Time and arithmetic: clocks are explicit and never go back, scores and averages are over the reals, so rounding is not modelled; a poll iteration is assumed to take at least two seconds.
- Settings: `max_retries` of an image and, for the timeout bound, its timeout do not change during a run; other settings may.
- JobStore.JobStore.EditImage: does not edit `max_retries`, on which the limits of a job already submitted depend.
- Image lookup: an image is found by its key instead of its tag, and tags are not edited.
- Columns without influence on the queue: priority, submission, user and course ids, assignment names, and most of the result row. The texts of error messages are parameters or constructors.
- Abstractions of the callback service: a job's log is part of its row, and the URL filter is a boolean.
- JobStore.JobStore.DetectStuckJobs: runs without interruption, as a method does; module `TimeoutSweep` lets all other actors act between any two rows of a sweep.
- DispatcherLoop.DispatcherService.StopLoop: clears the flag; the wait for the jobs in flight and a second start during that wait are not modelled.
- ZipExtraction.ContainmentFiresIff: the destination is not the root of the file system, and neither the symbolic links on the way to it nor the decoding of names inside the archive library are modelled; a failure inside that library is an index in `broken`.
- ZipExtraction.ExtractEntry: entries come with the names the archive library reports; a name that the library itself rejects is an index in `broken` and gives that error.
- Plain multi-file uploads, reading results.json with its coercions, and the removal of orphaned directories: they would only add easier members.
- Metrics, queue status and image statistics: single aggregate queries.
- FIFO and PRIORITY strategies: named in the documentation, not implemented.
