# Verified models of the media server's handlers

This project models the parts of the server whose correctness depends on more than one function: the library preview
scheduler, the life of a scrape claim, the keyset-paginated media listing and its search, the transactions over tags and
queue rows, and a few byte-level and arithmetic kernels. Each model follows the branches, edge cases and constants of the
code. Code that changes things in place is a class or a method with loops; its contract names a specification, and the
lemmas are about that specification. `dafny verify dfyconfig.toml` checks everything.

## What is modelled

**Library preview scheduler** (`PreviewState`, `PreviewScheduler`, `PreviewRuns`). `PreviewScheduler.Scheduler` is the
object behind the mutex, with the locked section of every operation. `PreviewRuns` interleaves any number of workers and
callers around these sections, with the one-slot wake channel, explicit program points, and shutdown. Proved over all runs:
no accepted refresh and no requested preview is lost, no wakeup is lost, one worker per library, bounded pending and
tracked ids, termination with a measure, and what a failure entry counts.

**Scrape claims** (`ScrapeQueue`, `ScrapeInvariants`, `ScrapeSettled`, `ScrapeRuns`, `ScrapeTorn`, `ScrapeLife`,
`ScrapeMerge`, `ScrapeLedger`, `ScrapeReconcile`, `ScrapeAgain`, `ScrapeFinish`, `ScrapeStore`). A task row and the step row of its plan change together under a lease.
`ScrapeStore.Store` executes the transactions statement by statement and rolls back; `ScrapeRuns` is the queue alone under
workers, the reaper, publication with the aggregation of its runs, operators, and starts of the server; `ScrapeLedger` adds
media, series, artwork journal, commit rows and history, and projects onto the queue, so that everything proved about the
queue holds of the database. The reaper reads the clock once per statement and the model keeps the four readings apart. The
claim is modelled from the publication package's own statements. `PreparedSeries` is the optimistic update of a series and
its siblings, `CreditManifest` the normalised cast and its keys in the manifest of a completion, `ScrapeMerge` the merging of a
result into the medium's document, `ScrapeTorn` what becomes of a task whose lease the reaper sees only in part, and `ScrapeLife` what every
event makes of a task.

**Media listing** (`MediaListing`, `MediaPages`, `LikePattern`, `MediaSearch`). Batches read by a nullable key and filtered in
the process, against "sort everything, filter, take the first rows"; the client's walk along `next_cursor`; and LIKE escaping
up to the set of media that a search selects.

**Queueing by hand** (`IngestPlan`, `ExplicitEnqueue`). A plan's steps and their queue rows, the claim's rules for them, and
what finalising a plan makes of both; the call that queues a row by hand, and whether a worker can claim it then.

**Tags, diagnostics, playlist** (`DocumentTags`, `DocumentTagBatch`, `Utf8Bounds`, `Playlist`).

Where a promise does not hold as stated, the model keeps the code and the lemma gives the exact condition:

- The reaper leaves step and task in agreement exactly when no lease of a linked task runs out between its statements
  (`ScrapeInvariants.ReapAgreesExact`). A torn lease leaves the step running beside a task that waits or, after its third
  attempt, has failed (`ScrapeTorn.TornWedges`), and then no worker claims the task (`ScrapeTorn.WedgedUntilFreed`) and a
  required step keeps its run in processing (`ScrapeTorn.HeldUntilFreed`), although the reaper's own comment says that it prevents
  stranded tasks. Of all events exactly these let the pair go: its run is superseded, cancelled or closed, the server starts again,
  or the startup repair finds its plan current (`ScrapeTorn.FreesExact`). A start of the server makes a waiting task of a current
  plan claimable again and cancels that of an outdated one (`ScrapeTorn.RestartFrees`). After any run it brings all steps into
  agreement with their tasks, except exactly those that the end of their run cancelled beside a failed task
  (`ScrapeTorn.RestartHealsRuns`); these agree again after a new round, the repair of a current plan, or an aggregation in which
  they block a processing run (`ScrapeTorn.JoinsExact`).
- The query that settles an uncertain commit is sound, but reports an applied completion as failed exactly when an earlier
  completion of the task had the same digest, or when a stage without images is named (`ScrapeReconcile.ReconcileExact`,
  `ScrapeReconcile.ReconcileOverRuns`). The manifest leaves the retry round out, so this is what happens to a standalone
  task that is completed at the same attempt with the same result in a new round, if that result is then committed in the same
  form (`ScrapeAgain.NewRoundTwin`). It is exactly if the images that the result has only under `extra` were in the document
  before, and the poster that is put there is the result's own (`ScrapeMerge.RepeatExact`); from the second completion on it always
  is (`ScrapeMerge.SecondRepeats`). A commit that was applied and reported busy is tried again, refused, and reported as failed
  without asking the query (`ScrapeFinish.FinishExact`).
- Queueing a finished task again by hand keeps its retry round, so an old commit row refuses the new completion
  (`ScrapeAgain.RequeuedIsRefused`). A waiting task can become done exactly if one of the attempts that it has left finds its
  commit key free (`ScrapeAgain.CompletableExact`); queued again as often as one likes, exactly if the round has a key left
  (`ScrapeAgain.CompletableAgainExact`).
- The manifest is independent of the provider's order of the cast exactly when no two credits count as one but are recorded
  differently (`CreditManifest.OrderFreeExact`); of the normalised cast it always is.
- A prepared series update with a sibling listed twice succeeds only if it does not change that sibling
  (`PreparedSeries.ApplyExact`).
- Following `next_cursor` is complete exactly for the listing by id, or when everything fits on one page, because the cursor is
  refused for the other two orders although it is handed out (`MediaPages.Walk`).
- Queueing by hand answers "already_queued" for a medium that does not exist (`ExplicitEnqueue.AlreadyQueuedExact`), and "queued"
  for a row that its plan gives up in the same transaction. Exactly when, can be read off the queue before the call
  (`ExplicitEnqueue.Fate`, exact by `ExplicitEnqueue.FateExact` and `ExplicitEnqueue.QueuedExact`). The row is skipped if it is
  linked and its step leads, over success edges and through waiting steps, to one that failed, was cancelled or was skipped. It is
  cancelled if its run is neither superseded nor published and finished, and either is over already (and of the row's generation),
  or has another required step that failed or was cancelled while none runs, and the step is required or the run (of the row's
  generation) is not to be preserved. Otherwise it waits, and only then does an immediate repeat answer "already_queued"; after a
  skip the repeat is refused, and after a cancellation it is "queued" once more (`ExplicitEnqueue.RepeatExact`).
- After "queued" the row can be claimed exactly if it had not been removed and its link lets it, which is read off the queue before
  the call, too (`ExplicitEnqueue.QueuedClaimExact`). So a row that the call inserts for a medium with a plan is never claimed, unless
  a start of the server binds it to a step (`ExplicitEnqueue.FreshIsNeverClaimed`), nor is one of a required step whose run was
  published and finished (`ExplicitEnqueue.FinishedRunIsStuck`).
- A retry cap below the first retry is replaced by half an hour, which may still be below it; the delay is then the first
  retry, above the cap (`PreviewScheduler.Normalize`, `PreviewScheduler.BackoffDelay`).

## Model

| member | source | states |
|---|---|---|
| PreviewScheduler.Normalize | api/handler/library_preview_scheduler.go:47-58 | Valid options are kept, missing ones replaced; exactly when the cap ends up at or above the first retry |
| PreviewScheduler.Scheduler.constructor | api/handler/library_preview_scheduler.go:43-64 | A new scheduler is empty and consistent |
| PreviewScheduler.Scheduler.Enqueue | api/handler/library_preview_scheduler.go:67-99 | Accepts or refuses as the abstract enqueue does after pruning, and keeps pending, running and deferred apart and bounded |
| PreviewScheduler.Scheduler.AdmitPruned | api/handler/library_preview_scheduler.go:74-95 | Backoff, coalescing of known ids, and admission against the capacity, in this order |
| PreviewScheduler.Scheduler.Take | api/handler/library_preview_scheduler.go:137-147 | Starts some pending id if there is one, refills from the overflow, and asks for a signal exactly when more is pending |
| PreviewScheduler.Scheduler.Finish | api/handler/library_preview_scheduler.go:148-172 | Settles failures, requeues a dirty id or forgets it, refills, and asks for a signal exactly when more is pending |
| PreviewScheduler.Scheduler.RecordFailure | api/handler/library_preview_scheduler.go:173-188 | One more attempt, the next retry by backoff, then pruning |
| PreviewScheduler.Scheduler.PruneFailures | api/handler/library_preview_scheduler.go:189-205 | Keeps no expired entry and at most the maximum, dropping the least recently seen ones and no more than needed |
| PreviewScheduler.Scheduler.LeastRecentlySeen | api/handler/library_preview_scheduler.go:195-203 | Finds an entry that no other was seen before |
| PreviewScheduler.Scheduler.PromoteDeferred | api/handler/library_preview_scheduler.go:206-221 | Moves deferred ids until pending is full or none is left |
| PreviewScheduler.BackoffDelay | api/handler/library_preview_scheduler.go:177-183 | The doubling loop computes the first retry times a power of two, capped, for every number of attempts |
| PreviewState.BackoffDoubles | api/handler/library_preview_scheduler.go:177-183 | The pauses are the first retry's, then each twice the one before, up to the longest |
| PreviewState.EnqueueKeeps | api/handler/library_preview_scheduler.go:67-99 | Enqueueing keeps the partition, the capacity and that a deferred id means a full pending set |
| PreviewState.EnqueueExact | api/handler/library_preview_scheduler.go:67-99 | A valid id is added exactly if it is new, there is room, and no failure entry makes an if-missing request rest; it is accepted exactly if added, known or resting; and nothing else changes but the marks of that id |
| PreviewState.PrunedExact | api/handler/library_preview_scheduler.go:189-205 | What pruning keeps and drops: by age, and for want of room the least recently seen |
| PreviewState.SettledExact | api/handler/library_preview_scheduler.go:148-188 | A success forgets the failures, a failed if-missing run adds one with its retry time, any other failed run changes nothing |
| PreviewState.TakeKeeps | api/handler/library_preview_scheduler.go:137-147 | Taking keeps the partition and the overflow rule, and loses no id |
| PreviewState.FinishKeeps | api/handler/library_preview_scheduler.go:148-172 | Finishing keeps the partition and the overflow rule; a dirty id stays owed a run |
| PreviewRuns.Reachable | api/handler/library_preview_scheduler.go:67-172 | The invariants hold in every state of every run, shutdown included |
| PreviewRuns.Capacity | api/handler/library_preview_scheduler.go:90-98 | Pending never exceeds its maximum, and all tracked ids never exceed it by more than the number of workers |
| PreviewRuns.MutualExclusion | api/handler/library_preview_scheduler.go:111-147 | No two workers run the same library at the same time |
| PreviewRuns.PendingIsNoticed | api/handler/library_preview_scheduler.go:105-147 | While something is pending, the token is there, or someone is about to signal, or a worker is awake: no lost wakeup |
| PreviewRuns.NoLostRefresh | api/handler/library_preview_scheduler.go:67-99 | After an accepted dirty request the id is pending, deferred, or running and marked dirty until a run of it starts |
| PreviewRuns.ServedAfterRequest | api/handler/library_preview_scheduler.go:137-172 | When nothing is left to do, a run of the id has started after the request |
| PreviewRuns.NoLostPreview | api/handler/library_preview_scheduler.go:76-98 | An if-missing request for a new id that is not resting is accepted exactly if there is room, and then the id is pending or in the overflow until a run of it starts |
| PreviewRuns.PreviewServed | api/handler/library_preview_scheduler.go:137-172 | When nothing is left to do, a run of that id has started |
| PreviewRuns.StepDecreases | api/handler/library_preview_scheduler.go:111-172 | Every step of the scheduler's own lowers a measure of the remaining work |
| PreviewRuns.Quiescence | api/handler/library_preview_scheduler.go:111-172 | After the last enqueue the number of further steps is bounded by the state at that time |
| PreviewRuns.StuckIsSettled | api/handler/library_preview_scheduler.go:111-172 | Without shutdown, a scheduler that cannot move has run everything it accepted: no deadlock |
| PreviewRuns.AttemptsCountFailures | api/handler/library_preview_scheduler.go:148-187 | A failure entry counts exactly the failed if-missing runs since the id last had none, with no success and no request in between |
| PreparedSeries.Desire | api/handler/scrape_prepared.go:37-84 | The field-by-field preparation yields the wanted columns, overview and backdrop |
| PreparedSeries.PrepareSiblings | api/handler/scrape_prepared.go:91-114 | Snapshots every sibling with its merged document; fails exactly if one cannot be merged |
| PreparedSeries.Prepare | api/handler/scrape_prepared.go:24-116 | The result is the snapshot of the rows with the wanted values |
| PreparedSeries.WantedExact | api/handler/scrape_prepared.go:37-86 | Every wanted column, overview and backdrop, and the document and the siblings' patch that are built from them, by the fields of the result and the row |
| PreparedSeries.ColumnsExact | api/handler/scrape_prepared.go:118-118 | The columns of a row are read with NULL as empty, and setting them sets these alone |
| PreparedSeries.PreparationRespects | api/handler/scrape_prepared.go:37-84 | External ids are never replaced, an established title with several linked media stays, title and poster are never blanked |
| PreparedSeries.BlankChangesNothing | api/handler/scrape_prepared.go:37-84 | A result that says nothing about the show changes neither title, poster nor ids |
| PreparedSeries.ApplyExact | api/handler/scrape_prepared.go:117-140 | Applying succeeds exactly when all rows hold the snapshot and repeated rows are not to change; then exactly the listed rows change |
| PreparedSeries.NoLostUpdate | api/handler/scrape_prepared.go:117-140 | If applying succeeds, every row held the values that were read when preparing |
| PreparedSeries.RepeatedSiblingFails | api/handler/scrape_prepared.go:91-139 | A sibling listed twice blocks the update although every row holds its snapshot |
| CreditManifest.Normalize | api/handler/scrape_task.go:1548-1566 | The loop keeps the first credit of each key among the named ones, in order |
| CreditManifest.CleanExact | api/handler/scrape_task.go:1552-1554 | Cleaning trims name, person id and occupation, and nothing else |
| CreditManifest.DedupeExact | api/handler/scrape_task.go:1558-1558 | Two credits count as one exactly if they are alike in all six parts, up to the case of the name |
| CreditManifest.ManifestKeyExact | api/handler/scrape_effects.go:255-257 | Two credits are recorded alike exactly if they are alike in all six parts, up to white space around them |
| CreditManifest.NormalizedMeans | api/handler/scrape_task.go:1548-1566 | Survivors are cleaned and named, no two share a key, every named credit is represented |
| CreditManifest.SortedKeysExact | api/handler/scrape_effects.go:254-259 | Two casts have the same sorted keys exactly when they have the same keys as often |
| CreditManifest.ManifestIgnoresOrder | api/handler/scrape_effects.go:251-269 | Reordering the normalised cast does not change the manifest's keys |
| CreditManifest.OrderFreeExact | api/handler/scrape_effects.go:251-259 | For the provider's list this holds exactly when credits that count as one are recorded alike |
| CreditManifest.CaseConflict | api/handler/scrape_task.go:1558-1558 | Two spellings of one name show that it can fail |
| CreditManifest.SameCastSameKeys | api/handler/scrape_effects.go:254-261 | Casts that are alike up to order, and do not conflict, give the same keys and the same number of them |
| ScrapeStore.Store.Claim | internal/publication/eligibility.go:498-564 | Claims a due and eligible task: one more attempt, a fresh token and a lease of 90 seconds on both rows; otherwise nothing changes |
| ScrapeStore.Store.Renew | api/handler/scrape_task.go:1366-1386 | Extends the lease of both rows exactly for the owner |
| ScrapeStore.Store.Fail | api/handler/scrape_task.go:1465-1499 | Back to waiting with a delay, or failed after the third attempt, with one history row; nothing for anyone but the owner |
| ScrapeStore.Store.ApplySeries | api/handler/scrape_prepared.go:117-140 | The loop over series and siblings succeeds and changes exactly as the compare-and-set specification |
| ScrapeStore.Store.WriteShelf | api/handler/scrape_merge.go:56-75 | Title and document of the medium and the series rows, or failure |
| ScrapeStore.Store.WriteBooks | api/handler/scrape_effects.go:30-81 | Artwork evidence and journal, repair task, manifest limit, commit row under a free key, history |
| ScrapeStore.Store.Describe | api/handler/scrape_effects.go:251-269 | The manifest of a completion: task, attempt, generation, stage, digests of result, place and sorted credit keys, counts and repair; no retry round |
| ScrapeStore.Store.Complete | api/handler/scrape_task.go:1390-1448 | The credits are normalised; then all of task, media, series, books and step are written, or nothing is |
| ScrapeStore.Store.CompleteBusy | api/handler/scrape_task.go:1362-1365 | Completes again after every busy error, also of a commit, with the merged result |
| ScrapeStore.Store.Finish | api/handler/scrape_task.go:606-616 | Completes, asks the query only after an uncertain commit, and runs the fallback failure, with an outcome of its own, if it does not believe the completion |
| ScrapeStore.Store.Recover | api/handler/scrape_task.go:72-91 | The reaper's four statements, each with its own clock reading, keep the invariants, and the agreement exactly if no lease is torn |
| ScrapeInvariants.OwnsColumns | api/handler/scrape_task.go:1356-1361 | What renewing, completing and failing demand of task, step, run and medium, column by column |
| ScrapeInvariants.ClaimKeeps | internal/publication/eligibility.go:498-564 | A claim keeps the invariants (attempts between 0 and 3, a waiting task claimable, a token exactly while running) and task/step agreement, and its holder owns the task |
| ScrapeInvariants.RenewKeeps | api/handler/scrape_task.go:1366-1386 | So does a renewal, and the holder still owns the task |
| ScrapeInvariants.FailKeeps | api/handler/scrape_task.go:1465-1499 | So does a failure; attempts never exceed three, and failed means exhausted |
| ScrapeInvariants.DoneKeeps | api/handler/scrape_task.go:1409-1444 | So does a completion |
| ScrapeInvariants.SupersedeKeeps | internal/publication/supersede.go:63-84 | So does superseding a run |
| ScrapeInvariants.CancelKeeps | internal/publication/cancel.go:57-62 | Cancelling a run keeps the invariants |
| ScrapeInvariants.CancelAgrees | internal/publication/cancel.go:57-62 | Cancelling a run keeps steps in agreement with their tasks |
| ScrapeInvariants.CancelPlanKeeps | internal/publication/cancel.go:18-62 | So does the cancellation of a processing run of the current generation, which closes it |
| ScrapeInvariants.AbortKeeps | internal/taskcontrol/scrape_operations.go:56-91 | So does aborting a task |
| ScrapeInvariants.ReopenKeeps | internal/publication/retry.go:135-167 | So does reopening an exhausted optional step in a new round |
| ScrapeInvariants.ResetKeeps | api/handler/scrape_task.go:182-187 | So does queueing a standalone task again |
| ScrapeInvariants.PlanKeeps | internal/publication/planner.go:308-349 | So does a new generation with its own step and task, also one that a repair plan adopts as done or skipped |
| ScrapeInvariants.EnqueueKeeps | api/handler/scrape_task.go:188-192 | So does a new standalone task |
| ScrapeInvariants.ReapKeeps | api/handler/scrape_task.go:72-91 | The reaper keeps all invariants but agreement, whatever its clock readings |
| ScrapeInvariants.ReapAgreesExact | api/handler/scrape_task.go:77-87 | The reaper keeps steps in agreement with tasks exactly when no lease of a linked task runs out between its statements |
| ScrapeInvariants.SameMomentAgrees | api/handler/scrape_task.go:77-87 | With one clock reading it always does |
| ScrapeInvariants.ReapTrails | api/handler/scrape_task.go:77-87 | Torn or not, a step that disagrees still runs while its task waits or failed, or was cancelled after its task had failed |
| ScrapeInvariants.AggregateKeeps | internal/publication/aggregate.go:78-147 | Aggregating a run, with the blocked required steps it cancels and the work of a closed run, keeps invariants and agreement, whatever the other steps do |
| ScrapeInvariants.AggregateExact | internal/publication/aggregate.go:107-139 | Exactly when a processing run is published, goes on, or stops; stopped, no required step is left waiting or running |
| ScrapeInvariants.SkipKeeps | internal/publication/dependencies.go:101-110 | So does skipping a step together with its task |
| ScrapeInvariants.RestartKeeps | internal/publication/scrape_startup_reset.go:35-62 | So does the reset at a start of the server |
| ScrapeInvariants.RestartHeals | internal/publication/scrape_startup_reset.go:35-62 | The reset brings every step that was left running behind its task back into agreement, and leaves exactly those in disagreement that were cancelled after their task had failed |
| ScrapeInvariants.RepairKeeps | internal/publication/reconcile_startup.go:363-378 | The repair of a step keeps the invariants |
| ScrapeInvariants.RepairExact | internal/publication/reconcile_startup.go:363-378 | It brings exactly the repaired pair into agreement and touches no other |
| ScrapeSettled.SupersedeSettles | internal/publication/supersede.go:63-84 | Superseding a run leaves none of its tasks and steps waiting or running |
| ScrapeSettled.AggregateSettles | internal/publication/terminal_convergence.go:18-50 | Nor does closing it, and a step is done exactly when its task is |
| ScrapeSettled.RestartSettles | internal/publication/scrape_startup_reset.go:35-62 | The reset sets nothing of a closed or superseded run going again |
| ScrapeRuns.Reachable | api/handler/scrape_task.go:1356-1498 | The invariants hold in every run from an empty queue, with workers, reaper, publication, operators and starts of the server |
| ScrapeRuns.DeadRunsRest | internal/publication/reconcile_startup.go:704-712 | In every such run no scrape task or step of a closed or superseded run waits or runs, so that the statement over the steps of superseded runs finds no scrape step |
| ScrapeRuns.NextAgrees | api/handler/scrape_task.go:72-91 | One event keeps agreement exactly unless it is a reaper pass that tears a lease |
| ScrapeRuns.StepsFollowTasks | api/handler/scrape_task.go:1411-1441 | Over any run without a torn lease each step has status, owner, lease and attempts of its task |
| ScrapeRuns.LostForever | api/handler/scrape_task.go:1356-1361 | A claim that lost its token or whose plan was overtaken never gets it back |
| ScrapeRuns.OwnsExact | api/handler/scrape_task.go:1356-1361 | The claim predicate holds exactly for claims that are not lost: a closed run has lost all its claims |
| ScrapeRuns.Fenced | api/handler/scrape_task.go:1366-1386 | After a claim is lost, its renew, complete and fail are refused at any later time and change nothing |
| ScrapeRuns.MutualExclusion | api/handler/scrape_task.go:1356-1361 | No two claims own one task |
| ScrapeRuns.AtMostOneEnd | api/handler/scrape_task.go:1409-1498 | A claim brings about at most one terminal transition over any run |
| ScrapeRuns.AttemptsBounded | internal/publication/eligibility.go:297-298 | At most three claims per task and retry round, plus three for each time it is queued again in that round |
| ScrapeRuns.ThirdIsLast | internal/publication/eligibility.go:297-298 | After the third claim of a round the task never waits in that round again |
| ScrapeRuns.RetryDelayExact | api/handler/scrape_task.go:1473-1473 | After a failure the task is due again exactly from 5 or 30 seconds on, after the third never |
| ScrapeRuns.LeaseProtects | api/handler/scrape_task.go:1368-1368 | For 90 seconds after a claim or renewal the reaper leaves the task alone, and after that it does not |
| ScrapeRuns.ReapExact | api/handler/scrape_task.go:77-87 | A pass makes an expired task due at once or, after the third attempt, failed, and leaves every other task as it is |
| ScrapeLife.Lifecycle | api/handler/scrape_task.go:72-91 | What every event, of worker, reaper, publication, operator or start, makes of the status, attempts and round of every task |
| ScrapeLife.RunCycle | internal/publication/supersede.go:63-68 | And of the status of every run: only superseding supersedes; superseding and cancelling close a processing run, reviving reopens it |
| ScrapeLife.GuardsExact | internal/publication/cancel.go:18-56 | When a run may be cancelled or aggregated, and a task aborted, reopened, queued again, skipped or repaired, by the columns |
| ScrapeLife.Births | internal/publication/planner.go:308-349 | Tasks come from new plans, with a processing run of their own, and from standalone requests; only a plan changes a generation |
| ScrapeLife.ClaimableExact | internal/publication/eligibility.go:283-298 | Given the invariants a task can be claimed exactly if it waits, is due, and its step waits in a current and open plan that lets it |
| ScrapeLife.DueAgain | internal/publication/scrape_startup_reset.go:54-62 | What is queued again or reopened is due at once; so is what a start of the server interrupts, unless it was to rest |
| ScrapeLife.ReapedStep | api/handler/scrape_task.go:77-87 | The step behind an expired lease is due from the moment of the first statement on, or failed at that of the third |
| ScrapeLife.EndMirrors | api/handler/scrape_task.go:1411-1499 | The step of a claim that ends takes over status and time of the end, and of a failure message, attempts and next time |
| ScrapeTorn.TornWedges | api/handler/scrape_task.go:77-87 | A torn lease leaves the step running and the task waiting or, after its last attempt, failed |
| ScrapeTorn.TornExample | api/handler/scrape_task.go:77-87 | A queue and four clock readings for which this happens, for each number of attempts |
| ScrapeTorn.FreesExact | internal/publication/reconcile_startup.go:363-378 | Exactly the end of its run, a start of the server and the repair of its current plan let such a pair go; everything else leaves both rows as they are; afterwards they agree, unless the run's end cancelled the step of a failed task |
| ScrapeTorn.WedgedUntilFreed | internal/publication/eligibility.go:283-290 | Until one of these happens the task is never claimed, over any run |
| ScrapeTorn.HoldsRun | internal/publication/aggregate.go:105-111 | While a required step is left running, aggregating its run gives processing, whatever the other steps do |
| ScrapeTorn.HeldUntilFreed | internal/publication/aggregate.go:105-111 | So over any run without such an event the run stays in processing |
| ScrapeTorn.RestartFrees | internal/publication/scrape_startup_reset.go:60-62 | After a start of the server a waiting one is claimable exactly if its plan is current, it is due and the plan lets it; otherwise it is cancelled |
| ScrapeTorn.RepairFrees | internal/publication/reconcile_startup.go:363-378 | After the repair of its current plan it is claimable if it is due and the plan lets it |
| ScrapeTorn.JoinsExact | internal/publication/reconcile_startup.go:363-378 | A step cancelled beside a failed task agrees again exactly after a new round, the repair of its current plan, or an aggregation in which it blocks its processing run |
| ScrapeTorn.RestartHealsRuns | internal/publication/scrape_startup_reset.go:35-62 | After any run from an empty queue, of whatever events, a start of the server leaves exactly the steps in disagreement that were cancelled beside a failed task |
| ScrapeTorn.ResyncJoins | internal/publication/reconcile_startup.go:363-378 | The repair that follows brings exactly those of current plans into agreement |
| ScrapeLife.RestartCopies | internal/publication/scrape_startup_reset.go:60-62 | A step that a start of the server sets waiting again takes over its task's attempts and time |
| ScrapeLife.RepairCopies | internal/publication/reconcile_startup.go:363-378 | The repair copies onto a step all that it shares with its task |
| ScrapeMerge.Prepare | api/handler/scrape_merge.go:28-52 | The loops merge the result into the document: missing images are filled in from it, its entries under extra stay unless the result has others |
| ScrapeMerge.CommittedExact | internal/scraper/preserve.go:16-36 | What is committed, field by field, and which entries are under extra |
| ScrapeMerge.ImagesExact | internal/scraper/preserve.go:82-110 | The images of a document: its own, or else those under extra |
| ScrapeMerge.CommittedAgain | internal/scraper/preserve.go:16-36 | Merging what was committed into the same document again changes nothing |
| ScrapeMerge.RepeatExact | internal/scraper/preserve.go:16-36 | Merged into its own merged document a result is committed in the same form exactly if its images under extra had counterparts, and the poster put there is its own |
| ScrapeMerge.SecondRepeats | internal/scraper/preserve.go:16-36 | From the second time on this always holds |
| ScrapeLedger.Projects | api/handler/scrape_task.go:1362-1365 | A run of the database is, on the queue, a run of the queue |
| ScrapeLedger.BooksMove | api/handler/scrape_effects.go:79-80 | The end of a claim writes exactly one history row, a completion also one commit row under a free key, nothing else writes either |
| ScrapeLedger.RefusedChangesNothing | api/handler/scrape_task.go:1356-1365 | A refused or rolled back end changes no row at all |
| ScrapeReconcile.SitesOk | api/handler/scrape_effects.go:35-50 | Evidence exists for done steps only, and there are as many commit rows as finished history rows |
| ScrapeReconcile.AllOrNothing | api/handler/scrape_task.go:1409-1444 | A completion writes task, step, medium, series, siblings, artwork, commit row, history, and a poster repair exactly if it is asked for and the task belongs to a plan, or leaves the database as it was |
| ScrapeReconcile.CompletesExact | api/handler/scrape_effects.go:30-80 | Exactly which completions are accepted |
| ScrapeReconcile.RepairsMove | api/handler/scrape_effects.go:66-71 | Only a completion that asks for it queues a poster repair, for its own medium, generation and run, and none is taken away |
| ScrapeReconcile.ShelfMoves | api/handler/scrape_merge.go:56-75 | Nothing but a completion, and edits from outside, changes the library |
| ScrapeReconcile.LeasedColumns | internal/metadatalib/stage.go:89-116 | A worker handles staged artwork exactly while its claim owns the task and both leases run |
| ScrapeReconcile.StagesMove | internal/metadatalib/stage.go:89-116 | Staged artwork is reserved under a lease, committed by the completion of the same claim alone, and until then quarantined, or discarded under a lease |
| ScrapeReconcile.ActsExact | api/handler/scrape_task.go:1362-1365 | Completing and failing, as acts among those of others, do what the transactions do |
| ScrapeReconcile.UnappliedIsNeverShown | api/handler/scrape_task.go:1453-1459 | If the commit did not go through, nobody else writes the claim's commit row |
| ScrapeReconcile.RecordStaysForever | api/handler/scrape_task.go:1453-1459 | If it did, its record stays while the task is not queued again |
| ScrapeReconcile.VerdictColumns | api/handler/scrape_task.go:1453-1459 | What the settling query asks of task, commit row, history, evidence and stage |
| ScrapeReconcile.ReconcileExact | api/handler/scrape_task.go:1445-1462 | The settling query answers "applied" exactly if it was, no earlier completion had the same digest, and a named stage has images |
| ScrapeReconcile.TwinsExact | api/handler/scrape_task.go:1453-1453 | The history holds a twin exactly if it did before or a completion with this digest was applied since |
| ScrapeReconcile.ReconcileOverRuns | api/handler/scrape_task.go:1445-1462 | Over a whole run from an unscraped library the query misses an applied completion exactly if an earlier one, in any round, committed the same manifest |
| ScrapeReconcile.TwinHidesCompletion | api/handler/scrape_effects.go:251-269 | Whatever happens in between, a later completion of the task with the same effects is applied and not seen |
| ScrapeReconcile.DigestsExact | api/handler/scrape_effects.go:251-269 | If neither the text of a manifest nor its digest collides, two completions have one digest exactly if their effects are the same; the round plays no part |
| ScrapeReconcile.CreditOrder | api/handler/scrape_task.go:1396-1424 | Manifest, completion and verdict do not depend on the order in which a cast is listed |
| ScrapeReconcile.FallbackRefused | api/handler/scrape_task.go:606-616 | After an applied completion the fallback failure is refused at any later time |
| ScrapeAgain.RequeuedIsRefused | api/handler/scrape_task.go:182-187 | A done task queued again by hand whose claim can be taken but never completed |
| ScrapeAgain.BarredForever | internal/store/migrations_ingest_publication.go:1939-1943 | Once no attempt to come has a free commit key in the round, nothing makes the task done in that round |
| ScrapeAgain.CompletableExact | api/handler/scrape_effects.go:79-80 | A waiting standalone task can become done without being queued again exactly if an attempt that it has left finds its key free |
| ScrapeAgain.CompletableAgainExact | api/handler/scrape_task.go:182-187 | Queued again in its round as often as one likes, it can become done exactly if the round has a key left |
| ScrapeAgain.SteadyExact | api/handler/scrape_merge.go:28-52 | For the merge of the code, a result is committed in the same form again exactly if its images repeat |
| ScrapeAgain.SteadyFromSecond | api/handler/scrape_merge.go:28-52 | For any document and result it is from the second completion on |
| ScrapeAgain.NewRoundTwin | internal/taskcontrol/scrape_operations.go:126-126 | A task of a medium without a series, completed, started in a new round and completed again with a result that is committed in the same form: applied, and not seen by the query |
| ScrapeFinish.MergeIsIdempotent | api/handler/scrape_task.go:1362-1365 | The merge of the code, given its own result for the same document, changes nothing |
| ScrapeFinish.FinishExact | api/handler/scrape_task.go:1362-1462 | Over any series of busy, broken, lost and applied tries: what the worker leaves behind, and exactly when it is told that it is done |
| MediaListing.KeysRank | api/handler/media_query.go:128-139 | Every order ranks rows with different ids, NULL keys last, ties by id |
| MediaListing.OrdersExact | api/handler/media_query.go:128-139 | By id; by creation, newest first, without one last, ties by id; and by the time a picture was taken, if known, else by creation |
| MediaListing.CursorExact | api/handler/media_query.go:189-202 | The cursor predicate selects exactly the rows that the order puts after the cursor's row, in all three cases |
| MediaListing.QueryContinues | api/handler/media_query.go:189-203 | Continuing behind the p-th row yields exactly the rest of the sorted list |
| MediaListing.TagIdMatches | api/handler/media.go:116-134 | The two loops find the filter among the tag ids or, as a custom tag, among the tags |
| MediaListing.FilterBatch | api/handler/media_query.go:330-343 | Appends the rows of a batch that pass, in order, up to the limit |
| MediaListing.Scan | api/handler/media_query.go:301-354 | The batched loop returns the first rows of the filtered sorted list, whatever the filter and the batch size |
| MediaListing.KeepsExact | api/handler/media_query.go:330-338 | A row passes exactly if it lies in a folder listed for its library, if any is, and has the tag asked for, if any, as a tag id or as a custom tag |
| MediaListing.ListingExact | api/handler/media_query.go:301-354 | What the listing returns, by the columns of the rows: only rows that pass, in order; and a row that passes is missing only if the listing is full of earlier ones |
| MediaListing.List | api/handler/media_query.go:301-354 | The listing equals sort, filter, take; it fails exactly for a batch size that is not positive |
| MediaPages.Serve | api/handler/media.go:69-113 | One page: limit rows, whether there are more, and the id to continue from; a cursor is refused for other orders |
| MediaPages.NextPage | api/handler/media_query.go:189-192 | Behind the last id shown come exactly the rows that were not shown |
| MediaPages.Walk | api/handler/media.go:69-112 | Following next_cursor shows every row exactly once by id; for the other orders it is complete exactly if one page suffices |
| MediaPages.KeptExact | api/handler/media_query.go:330-339 | What the walk shows, by the columns: exactly the rows in the allowed folders with the tag asked for, without repetition, in order |
| MediaPages.ParseExact | api/handler/media_query.go:189-192 | A cursor is accepted exactly for the listing by id and if it is positive, and selects the smaller ids |
| LikePattern.EscapeIsOnePass | api/handler/document.go:1275-1280 | The three replacements escape every special character exactly once |
| LikePattern.LiteralThen | api/handler/document.go:1275-1280 | Escaped text matches itself up to case, and then the rest of the pattern |
| LikePattern.ContainsExact | api/handler/media_search.go:62-62 | The search pattern matches exactly the strings that contain the text |
| LikePattern.BelowFolderExact | api/handler/document.go:150-155 | The folder pattern matches exactly the paths below the folder |
| LikePattern.UnderscoreExact | api/handler/document.go:1275-1280 | Without escaping an underscore would stand for any character |
| MediaSearch.FieldsExact | api/handler/media_search.go:12-12 | The words have no white space, and together they are the query without it |
| MediaSearch.FieldsAreTheCut | api/handler/media_search.go:12-12 | The query is these words with gaps of white space around them, none of the inner ones empty, and it is no other words in such a way |
| MediaSearch.SplitTokens | api/handler/media_search.go:7-26 | The tokens are the one way to cut the query at its white space, none exactly for a blank one; the fallbacks are never taken |
| MediaSearch.AppendFilter | api/handler/media_search.go:56-69 | One clause per word of that cut and seventeen arguments for each |
| MediaSearch.SearchExact | api/handler/media_search.go:28-69 | Clauses and arguments together select exactly the media in which every word occurs |
| DocumentTags.ApplyMode | api/handler/document.go:792-827 | The loops compute the specified list |
| DocumentTags.ApplyMembers | api/handler/document.go:792-819 | What is in the list after adding, removing and replacing |
| DocumentTags.ApplyCanonical | api/handler/document.go:820-827 | Lists without repeated tags stay so, strictly sorted by folded tag |
| DocumentTags.AddIdempotent | api/handler/document.go:811-817 | Adding again changes nothing |
| DocumentTags.RemoveAfterAdd | api/handler/document.go:805-817 | Removing after adding equals removing, as lists |
| DocumentTags.NormalizeTags | api/handler/document.go:726-745 | Fails exactly on an invalid tag; otherwise exactly the first spelling of every tag, none repeated |
| DocumentTags.AddAllFirsts | api/handler/document.go:811-817 | Adding adds, of each tag that was not there, exactly the first spelling |
| DocumentTags.NormalizeRequest | api/handler/document.go:747-774 | Exactly which requests are accepted, and what they become |
| DocumentTagBatch.Plan | api/handler/document.go:998-1015 | New lists and net counts for all documents, or failure exactly if one list is too long |
| DocumentTagBatch.Report | api/handler/document.go:1016-1022 | Exactly the non-zero counts, sorted by tag |
| DocumentTagBatch.Rewrite | api/handler/document.go:1027-1040 | Delete and insert leave the new lists for the addressed documents and all others as they were |
| DocumentTagBatch.TagStore.Update | api/handler/document.go:955-1041 | All or nothing; each reported delta is new minus old occurrences, and no zero is reported |
| DocumentTagBatch.FacetsConserved | api/handler/document.go:1003-1022 | Over the whole library each facet count changes by exactly its delta |
| IngestPlan.PropagationExact | internal/publication/dependencies.go:74-113 | The passes skip exactly the waiting steps that wait for one that can no longer succeed |
| IngestPlan.FinalizationKeeps | internal/publication/lifecycle_finalize.go:60-68 | Finalising a plan touches no other plan, and starts nothing in this one |
| IngestPlan.AggregationExact | internal/publication/aggregate.go:102-184 | Exactly when a plan is published, and with it its medium, or goes on; stopped, no required step waits or runs |
| IngestPlan.ClaimExact | internal/publication/eligibility.go:283-298 | Exactly which rows of the queue a worker may claim, by the columns of row, run, medium, steps and dependencies |
| IngestPlan.FinalizedOutcome | internal/publication/aggregate.go:96-132 | What becomes of the run: over, in process, published, degraded or failed, each exactly when |
| IngestPlan.FinalizedShows | internal/publication/aggregate.go:148-184 | What the medium of a current run shows after each outcome; it becomes published exactly when its run is |
| IngestPlan.FinalizedRests | internal/publication/aggregate.go:93-98 | A superseded run, and one published and finished, stay as they are, and so do the media |
| IngestPlan.HopelessExact | internal/publication/dependencies.go:66-113 | The passes skip exactly the waiting steps from which success edges lead, through waiting steps, to one that failed, was cancelled or was skipped |
| IngestPlan.FinalizedRun | internal/publication/aggregate.go:96-139 | What finalising makes of the run, in closed form from the queue before the passes |
| IngestPlan.FinalizedMedium | internal/publication/aggregate.go:146-184 | The same for what the medium shows |
| IngestPlan.FinalizedStep | internal/publication/lifecycle_finalize.go:60-68 | The same for each step |
| IngestPlan.FinalizedRow | internal/publication/lifecycle_finalize.go:60-68 | The same for each row of the queue |
| IngestPlan.LinkedExact | internal/publication/eligibility.go:283-290 | Whether the claim's rules then let a linked row through, from the queue before the passes |
| IngestPlan.OverLeavesNothing | internal/publication/aggregate.go:106-147 | A run that failed or was cancelled leaves no row waiting or running |
| ExplicitEnqueue.PostIngest.Enqueue | api/handler/postingest_retry.go:55-155 | One call does and answers what the specification says, and keeps one row per slot |
| ExplicitEnqueue.FateExact | internal/postingest/queue.go:102-114 | A restarted row ends up waiting, skipped or cancelled exactly as its plan before the call says |
| ExplicitEnqueue.QueuedExact | api/handler/postingest_retry.go:77-154 | Every other answer changes nothing; "queued" leaves a row that became waiting exactly if there was none, or if the plan before the call does not give it up; the restarted row, and an inserted one, are given in full |
| ExplicitEnqueue.Answer | api/handler/postingest_retry.go:106-133 | The answer for a row that is there, by its status, what the call allows, and whether the transaction goes through |
| ExplicitEnqueue.RestartInOverRun | internal/postingest/queue.go:102-114 | A row of a run that is over is answered "queued" and given up in the same transaction |
| ExplicitEnqueue.CallFrame | api/handler/postingest_retry.go:106-141 | A call changes no row of another run; of the target's run it only gives up what waits or runs |
| ExplicitEnqueue.AlreadyQueuedExact | api/handler/postingest_retry.go:72-114 | "already_queued" exactly for a waiting row or a medium that does not exist |
| ExplicitEnqueue.RepeatExact | api/handler/postingest_retry.go:106-114 | An immediate repeat changes nothing and answers "already_queued" exactly if the plan before the call does not give the row up; after a skip it is refused, after a cancellation "queued" again |
| ExplicitEnqueue.QueuedClaimExact | internal/publication/eligibility.go:498-518 | A restarted row can be claimed exactly if it had not been removed and its link, as the queue before the call has it, lets it; an inserted one exactly if its medium never had a plan |
| ExplicitEnqueue.FinishedRunIsStuck | internal/publication/eligibility.go:283-290 | A restarted row of a required step whose run was published and finished is never claimable then |
| ExplicitEnqueue.SkippedAtOnce | api/handler/postingest_retry.go:106-154 | A row without hope is answered "queued", skipped in the same transaction, and the repeat is refused |
| ExplicitEnqueue.AbandonedIsSkipped | api/handler/postingest_retry.go:106-154 | A run, a failed step, one that waited for it, and its row, with which this happens |
| ExplicitEnqueue.RemovedIsStuck | api/handler/postingest_retry.go:131-131 | A removed row that is queued and never claimable |
| ExplicitEnqueue.FreshIsNeverClaimed | api/handler/postingest_retry.go:77-81 | A row inserted for a medium with a plan is never claimable, in whatever run follows, unless a start of the server binds it to a step |
| ExplicitEnqueue.FreshExample | api/handler/postingest_retry.go:77-81 | Such a medium and its row, for every generation above 0 |
| ExplicitEnqueue.OneRowPerSlot | api/handler/postingest_retry.go:78-81 | At most one row per medium, generation and type over any run |
| Utf8Bounds.Truncate | api/handler/admin_overview.go:322-331 | The shrinking loop yields the specified cut for every input and bound |
| Utf8Bounds.ValidExact | api/handler/admin_overview.go:322-331 | Well formed are exactly the encodings of characters by section 3 of RFC 3629 |
| Utf8Bounds.TruncatedExact | api/handler/admin_overview.go:322-331 | It is the longest well-formed part of the allowed bytes |
| Utf8Bounds.CutLosesLittle | api/handler/admin_overview.go:322-331 | For well-formed text it loses at most three of them |
| Utf8Bounds.CutOfBroken | api/handler/admin_overview.go:322-331 | Text broken from the start is cut to nothing if it is too long |
| Utf8Bounds.MetadataDiagnostics | api/handler/media_ingest.go:186-208 | The longest prefix of the non-empty entries within eight entries and 2048 bytes |
| Utf8Bounds.RecoveryErrors | api/handler/media_ingest.go:285-311 | All non-empty messages: with eight rows the byte budget never drops one |
| Playlist.Generate | api/handler/jit_session.go:457-498 | The loop lists the segments from the start segment on, the last with its own duration |
| Playlist.LastExact | api/handler/jit_session.go:463-466 | The fallback for a short last segment is never taken |
| Playlist.SumsToStartTime | api/handler/jit_session.go:23-25 | The durations before a segment add up to its start time |
| Playlist.CoversTheRest | api/handler/jit_session.go:482-496 | A playlist covers exactly the medium from its first segment on |
| Playlist.WithinTarget | api/handler/jit_session.go:482-494 | Every duration, also as printed, rounds to at most the target duration of section 4.3.3.1 of RFC 8216 |
| Playlist.NoSegmentsExact | api/handler/jit_session.go:457-462 | Exactly which durations give no segment |

## Left out

- ScrapeStore.Store.Claim: what the publication rules decide from the other steps of a plan and from the medium's publication state is one input, `ready`; busy retries and the claim's own commit reconciliation are not modelled.
- ScrapeStore.Store.Complete: the cast import, relationship sync and the image file checks only contribute whether they succeed; finalising the plan is an event of its own in `ScrapeRuns`; the late series sync for a medium that was linked after preparing is not modelled.
- ScrapeStore.Store.Finish: how each try ends is an input, all tries read one clock value, and other workers act before or after them, not in between; heartbeats and the 80-second work limit are events of `ScrapeRuns`, not code.
- ScrapeFinish.FinishExact: that merging a merged result into the same document again changes nothing is a hypothesis, which `ScrapeFinish.MergeIsIdempotent` proves of the merge in `ScrapeMerge`.
- ScrapeMerge.Prepare: of a document and a result only the images and `extra` are looked into; that writing and reading JSON are inverse is a hypothesis, and a document that is not JSON reads as an empty one.
- ScrapeAgain.CompletableExact: that the result can be merged and the manifests of the task's three attempts are not too long is a hypothesis, on the shelf as it is.
- ScrapeRuns.Reachable: a transaction that finalises its plan is two events, and the startup repair works row by row; what the required steps other than the scrape are up to is an input of the aggregation; of the reconciliation of orphaned rows at a start of the server only the revival of a run is an event, since the rest acts on runs that are over; the insertion of a task that a step lacks is none; rows with only part of a link are not modelled.
- MediaListing.List: the part of the WHERE clause that does not depend on the cursor is a predicate; the folder comparison is a function; cancelled requests are left out.
- MediaPages.Walk: the table does not change during the walk.
- LikePattern.ContainsExact: case folding is per character; SQLite's limit on pattern length is left out.
- DocumentTagBatch.TagStore.Update: permissions, deadlines and busy retries are left out; blank tags of an older version are not counted, as in the code.
- DocumentTags.ApplyMode: one abstract case fold stands for `strings.EqualFold` and `strings.ToLower`.
- DocumentTags.NormalizeTags: the check for UTF-8, 64 bytes and control characters is a predicate.
- ExplicitEnqueue.PostIngest.Enqueue: the striped lock makes a call one step; the domain rows only contribute whether writing them succeeds; of a step only its status is kept; rows of other queues that finalising a plan changes are not part of the model.
- ExplicitEnqueue.QueuedClaimExact: the condition of the claim at the time of the call; which of several claimable rows a worker picks is left out.
- Utf8Bounds.MetadataDiagnostics: trimming is a function; a row that cannot be read ends the list early in the code.
- Playlist.Generate: durations are real numbers; the text around the numbers is left out.
- PreviewRuns.Reachable: the log line and the background group are left out; ids and times are unbounded.
- The lifetime of rows: deleting tasks, media and libraries.
- JSON, SHA-256 and UUIDs: functions and a supply of fresh tokens; the manifest limit counts characters of an ASCII document.
- HTTP handlers, permissions, SSE, scrapers, encoders and file storage: plumbing or foreign calls.
- The preview refresh itself, settings, playlists, favorites, library CRUD and endpoints that only loop over these functions: easy members.
