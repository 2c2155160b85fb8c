# A verified model of the durable ingest pipeline

The repository mirrors a film and television catalog. Its ingest side is a set of durable jobs that must reach the
same result as a simple sequential program whatever the interleaving, batching, crash or retry. This project models
that machinery in Dafny and proves it, function by function or over whole runs:

- `ScanQuiescence`, `ScanOutcomes`, `CompletionGate`, `OrderlyScan`, `ScanEscapes`: the completion gate of a
  `daily_sync` scan as termination detection over durable jobs, what its jobs leave behind, when the gate is sound,
  and how it can be passed too early. `SyncWindows`: the days that successive scans read.
- `ScanCoordinator`, `CoordinatorWork`, `PhaseGates`, `ScanRuns`, `ScanPlaces`, `CoordinatorGate`, `ScanRunEscapes`,
  `KeysetScan`, `CatalogBatches`, `ExportScan`, `ExportLines`, `FanOut`: the catalog-scan coordinator. A scan is a
  tree of jobs whose whole state is in their payloads; its batches, chunks and fan-outs are fast forms of simple
  passes. Its runs are made of executions that may be cut off after any submission, run again, overtake each other,
  lose their outcome, and be retried by an operator.
- `LeasedWorker`, `LeasedOutcomes`, `QueueRules` and `LeasedEscapes` over `JobQueue`: workers that claim, heartbeat,
  execute, abort and record outcomes under leases, and why each job ends as it does.
- `CatalogWrite`, `CatalogLanguages` and `CatalogWriters` over `LockOrder`: what a catalog transaction validates and
  locks, and why movie and television writers never block each other for good.
- `RequestGate` and `HeartbeatThrottle` over `Spacing`: rate bounds that hold for every schedule and interleaving.
- `LocalMedia` with `LocalMediaUrls`, and `JobListQuery` with `JobListSettings`: two pieces of the API, a JSON
  annotator and a query-string parser.
- `JpegScan`; `AtomicPublish`, `PublishGuarantees`; `MediaExpansion`, `MediaCompletion`, `MediaEscapes`: the image
  service, from header scan to publication and request expansion.

Shared vocabulary lives in `Catalog`, `Widths`, `Text`, `Trimming`, `Numerals`, `Utf8`, `Characters` and `Sorting`.
Concurrent parts are transition systems over values, with one action for each step that other parties can observe;
each `select!` arm, lost reply, lease expiry and crash is a nondeterministic choice. Loops of the source are loops
here, proved against functions whose properties are then proved as lemmas. `JobQueue` states the effect of the
database functions behind the queue on their rows (`crates/tmdb-db/migrations`): a submission is dropped only while a
job of the same key is active, an outcome counts only under a live lease in the worker's name, a job whose
cancellation was requested ends cancelled instead of completed, and an operator's retry is a new job under a key of
its own.

## What turned out to be false

The model keeps the code as it is, so some expected properties appear with their exact condition and a counterexample.

- The completion gate of a `daily_sync` scan does not by itself prove that the feeds were read to their end. It does
  so over every run that meets four conditions (`OrderlyGateIsSound`, `AdvancedFeedsStayComplete`): operators retry no
  scan and cancel no page since the newest root, executions act only under a live lease, and no page is submitted
  between the gate's two reads. Each condition is needed: for each there is a run that breaks only it and in which the
  gate opens over an unfinished feed (`StaleDeadLetterPassesGate`, `CancelledPagePassesGate`,
  `StaleExecutionPassesGate`, `TornGatePassesOpenFeed`). Whatever happens, what the gate misses is a blocked page
  whose jobs predate the newest root, came after the first read or were cancelled (`GateMissesOnlyTheUnseen`); one
  read that ignored the age of failures would miss only cancelled pages (`AtomicAgelessGateIsSound`).
- The gate also ignores `admin.scan` jobs. When the completion of one medium finds no active work, each medium of the
  scan is past its phases, or a scan of an earlier phase has yet to hand it on, or it was lost; and a medium that is
  in one place is past them exactly when neither of the others holds (`CompletionProvesPhasesOverIff`). Both
  exceptions occur (`CompletionOverlooksCoordinators`, `CompletionOverlooksLostScans`), and even in a scan of one
  medium that is never disturbed the completion can begin while the scan that submitted it is still active
  (`CompletionBeginsBesideItsParent`), though it is then the only one that has yet to hand the medium on
  (`SingleMediumCompletionIsSound`).
- A medium of a scan is never dropped (`NoMediumIsDropped`), but it can be in two places. It is in one place
  throughout a run if and only if no step starts it again (`EachMediumIsInOnePlaceIff`): a step that was cut off after
  a submission and is run again once the first chain has moved on does (`CutStepStartsTwice`), so does a step whose
  success was never recorded (`LostOutcomeCompletesTwice`), and so does an operator's retry of a lost scan
  (`RetryCountsTwice`). Runs without any of these keep one place (`UncutRunsKeepOnePlace`), and in all runs the places
  balance against the repetitions that deduplication did not absorb (`PlacesBalance`).
- An outcome call that takes effect after its worker has claimed the same job again records under the later claim: the
  queue checks the worker's name and the lease, not the attempt. A late outcome is in force exactly when its worker
  made no later claim of the job (`LateOutcomeIsInForceIff`); otherwise it ends an execution that is not its own
  (`LateOutcomeEndsLaterClaim`).
- The watermark of the daily scans can pass days that no scan read. When it moves, none has been skipped so far
  exactly when every day between it and the first day of the window was in an earlier window (`AdvanceSkipsIff`). Runs
  whose starts ask for no window past the watermark, and whose sweeps do not lower it, skip none
  (`TameRunsSkipNoDay`); an operator who asks for a later window makes it skip days for good
  (`RequestedWindowSkipsDays`).
- The season batch writes a `scope` field that the season payload parser denies, so every job it submits is refused
  (`SeasonBatchIsRefused`).
- The database numbers the sources of a media request afresh for each batch and drops a link whose number is taken. A
  completing pass leaves every stable source linked if and only if it gave no stable source a number that was taken at
  its claim (`CompletingPassLinksAllIff`), which holds whenever every claim finds no number above the saved cursor
  (`NoSourceIsSkipped`). An error in the middle of a batch breaks that, and a source can be lost for good
  (`DisplacedSourceIsLost`), although it was always admitted (`CompleteMeansAdmitted`).
- A complete media request is claimed again while it waits for its images, and is marked incomplete exactly when its
  holder releases it without having come to the end of the sources (`CompletionIsLostIff`, `CompleteRequestReopens`).
  The cursor never goes back (`CursorNeverGoesBack`).
- A published image is not durable when its publisher reports success: the file is synced before the rename, but the
  directory is not. The destination holds a whole body for good if and only if every directory state that a power
  loss may restore has one (`DurableIff`), and a success can be undone (`PowerLossUndoesSuccess`). Once the directory
  has reached the disk a success lasts (`PersistedSuccessIsDurable`).
- Season writers sort people inside an episode but not across episodes: their locks are ordered exactly when the
  people happen to ascend (`SeasonDisciplinedIff`), and two season writers can block each other
  (`SeasonWritersCanDeadlock`) until a lock timeout ends one of them.
- A television write can still fail after its transaction began, on a season summary's number or date
  (`PersistTv`); a season write likewise on an episode's date or vote count (`PersistSeason`).
- The request gate's spacing, and the throttle's, hold exactly while the clock arithmetic does not overflow
  (`StartsAreSpacedIff` with `OverflowBunches`, `ClaimsAreSpacedIff` with `SaturationClaimsTwice`); for rates that do
  not divide a second the bound is one above the configured rate, and a burst reaches it (`BoundIsReached`).
- The JPEG scan does not insist on the 0xFF before a marker (`PrefixIsNotRequired`).

## Model

| member | source | states |
|---|---|---|
| ScanQuiescence.LatestRootIsMaximum | apps/tmdb-ingest/src/jobs.rs:2948-2980 | the root time the gate reads is the newest creation time among scans submitted without a phase |
| ScanQuiescence.StepKeepsInv | apps/tmdb-ingest/src/jobs.rs:1458-1540 | every step of every worker keeps: completion jobs have page 1 of each feed, succeeded pages have their successors, and what each gate read found still holds |
| ScanOutcomes.CompletionsEnd | apps/tmdb-ingest/src/jobs.rs:2771-2837 | in every run, a completion that succeeded either found active ingest work at its first read and was followed by one with the next poll, or found none and then met a standing failure or no root, or found neither and moved the watermark of its own feeds |
| ScanOutcomes.WaitLeavesNextPoll | apps/tmdb-ingest/src/jobs.rs:2782-2805 | in every reachable state, a completion that waits leaves one of the same media and window active, with its poll one higher |
| ScanOutcomes.StartsBegin | apps/tmdb-ingest/src/jobs.rs:1875-1929 | in every run, a start that succeeded found no window, or submitted page 1 of every feed of the window it chose and a completion at poll 0 |
| ScanOutcomes.PagesReportWhatTheyFetched | apps/tmdb-ingest/src/jobs.rs:1458-1540 | in every run, the page count that a page's success records is one that an execution of it fetched |
| ScanOutcomes.JobsAreCalledFor | apps/tmdb-ingest/src/jobs.rs:1504-1531 | in every run, each first page and first completion comes from a start that chose its window, each later page from the page before it, which reported it, and each later poll from the one before it, which found work; each with its own limit of attempts |
| ScanOutcomes.AdvancesAreEarned | apps/tmdb-ingest/src/jobs.rs:2806-2837 | in every run, the watermark moves only for a completion that found no active work at its first read and no standing failure at its second |
| CompletionGate.CompleteOrBlocked | apps/tmdb-ingest/src/jobs.rs:1486-1531 | a feed with page 1 is read to its end if and only if it has no first submitted page without a success |
| CompletionGate.GateMissesOnlyTheUnseen | apps/tmdb-ingest/src/jobs.rs:2935-2981 | in every run, when an advancing watermark covers an unfinished feed, the page where it is stuck has only jobs that are older than the newest root, came after the first read or were cancelled |
| CompletionGate.QuiescenceIsSound | apps/tmdb-ingest/src/jobs.rs:2782-2811 | in every run, when the feed's page jobs date from the newest root, none was cancelled and none came between the gate's reads, advancing means every page succeeded |
| CompletionGate.AtomicAgelessGateIsSound | apps/tmdb-ingest/src/jobs.rs:2935-2981 | in every reachable state without active work or unrecovered failures of any age, every feed of every completion job is finished or had a page cancelled |
| OrderlyScan.OrderlyStepKeeps | crates/tmdb-db/migrations/0052_on_demand_media_requests.sql:1410-1446 | with executions under live leases, no retried scans and roots accepted only when nothing is active, every step keeps: what is active, and every page that a completion relies on, dates from the last root |
| OrderlyScan.OrderlyGateIsSound | apps/tmdb-ingest/src/jobs.rs:2782-2837 | in every such run, a completion that holds its lease and whose feed had no page submitted since the last root cancelled, and got none between the reads, advances only over a feed read to its end, whatever the age of failures |
| OrderlyScan.AdvancedFeedsStayComplete | apps/tmdb-ingest/src/jobs.rs:2811-2837 | over a whole such run whose gates met no page late or cancelled since the last root, every feed for which the watermark was ever advanced was read to its end and stays so |
| SyncWindows.NextWindowStartsAtTheLastEnd | apps/tmdb-ingest/src/jobs.rs:2159-2194 | a scan that asks for no window, started after the watermark moved to the end of one, reads from there until today |
| SyncWindows.AdvanceSkipsIff | crates/tmdb-db/migrations/0052_on_demand_media_requests.sql:1307-1340 | in every run, when the watermark moves, no day has been skipped if and only if every day between it and the window was in an earlier one |
| SyncWindows.TameRunsSkipNoDay | apps/tmdb-ingest/src/jobs.rs:2159-2194 | in every run whose starts ask for no window past the watermark and whose sweeps do not lower it, no day is ever skipped |
| SyncWindows.RequestedWindowSkipsDays | apps/tmdb-ingest/src/jobs.rs:2175-2194 | a run in which a requested window takes the watermark over a day that no scan read |
| ScanEscapes.StaleDeadLetterPassesGate | crates/tmdb-db/migrations/0022_admin_operations.sql:289-372 | an operator retries an earlier root while a page runs; the gate opens though no page of the feed ever succeeded |
| ScanEscapes.CancelledPagePassesGate | crates/tmdb-db/migrations/0022_admin_operations.sql:225-287 | in an orderly run an operator cancels page 1, and the gate opens |
| ScanEscapes.StaleExecutionPassesGate | apps/tmdb-ingest/src/jobs.rs:2948-2980 | a completion that outlived its lease passes both reads after the next root was submitted, though its feed was never read |
| ScanEscapes.TornGatePassesOpenFeed | apps/tmdb-ingest/src/jobs.rs:2782-2811 | in an orderly run, a start that is executed again between the two reads recovers page 1 and queues page 2, and the gate opens |
| ScanCoordinator.ScanRoundTrip | apps/tmdb-ingest/src/jobs.rs:373-428 | a written scan payload parses back to the same job exactly when the job passes the value checks |
| ScanCoordinator.ChangesRoundTrip | apps/tmdb-ingest/src/jobs.rs:334-351 | a written change-page payload parses back exactly when its page is positive and its window valid |
| ScanCoordinator.RefreshAcceptedIff | apps/tmdb-ingest/src/jobs.rs:294-325 | a batch's refresh payload is accepted exactly for a positive id, with the scope that was written |
| ScanCoordinator.SeasonBatchIsRefused | apps/tmdb-ingest/src/jobs.rs:2678-2689 | every payload the season batch writes is refused by the season parser |
| ScanCoordinator.SeasonWouldBeReadIff | apps/tmdb-ingest/src/jobs.rs:2678-2689 | without its `scope` the payload would be read as exactly the show and season it was written for |
| ScanCoordinator.StepIsClosed | apps/tmdb-ingest/src/jobs.rs:1875-2064 | from any accepted job, whatever a step reads, each scan it emits is accepted, never behind, and strictly smaller unless the step waits; the other children are well formed except season jobs |
| ScanCoordinator.PhaseStepGood | apps/tmdb-ingest/src/jobs.rs:2756-2933 | the same for the enrichment, season and completion phases |
| ScanCoordinator.StartStepGood | apps/tmdb-ingest/src/jobs.rs:1836-2045 | the same for the start phase in each of its six modes |
| ScanCoordinator.StartCoversEveryMedium | apps/tmdb-ingest/src/jobs.rs:1845-2045 | a start step that succeeds starts the work of every requested medium, and a daily scan queues its completion last |
| CoordinatorWork.RootIsReadAsStart | apps/tmdb-ingest/src/jobs.rs:158-172 | the payload of a root, which has no phase, cursor or poll, is accepted as a start from the first row exactly for one or two distinct media and, on a daily scan only, a window of at most fourteen days |
| CoordinatorWork.DailyScanReadsItsWindow | apps/tmdb-ingest/src/jobs.rs:1875-1929 | with S the requested first day or else the end of the last window, and E the requested last day or else today: page 1 of each medium and the completion carry exactly (S, E) when no sweep is required and S <= E <= S + 13, and otherwise there is neither page nor completion |
| CoordinatorWork.DailyScanNeedsAStart | apps/tmdb-ingest/src/jobs.rs:2175-2183 | without a first day nothing is read |
| CoordinatorWork.SweepStarts | apps/tmdb-ingest/src/jobs.rs:1840-1874 | a full sweep asks, for each medium in order, for both trends and the whole export |
| CoordinatorWork.RecoveryStarts | apps/tmdb-ingest/src/jobs.rs:2040-2064 | a recovery or reconcile asks, for each medium in order, for its export of missing ids and its enrichment |
| CoordinatorWork.MissingStepSubmits | apps/tmdb-ingest/src/jobs.rs:2467-2530 | a missing-only start refreshes exactly the active, uncensused titles of its media between its cursor and the end of its batch |
| CoordinatorWork.MissingStepGoesOn | apps/tmdb-ingest/src/jobs.rs:2007-2039 | it goes on from its last row, and at the end begins the enrichment of each medium in order |
| CoordinatorWork.FirstStepConfigures | apps/tmdb-ingest/src/jobs.rs:2007-2039 | of its steps only the first asks for the upstream configuration |
| ScanCoordinator.EnrichmentSubmitsItsBatch | apps/tmdb-ingest/src/jobs.rs:2567-2612 | an enrichment step submits one job for each row of its batch, in order, and then one scan |
| CoordinatorWork.EnrichmentStepSubmits | apps/tmdb-ingest/src/jobs.rs:2532-2619 | an enrichment step enriches exactly the active titles of its medium in reach that are unenriched, or all of them in a full sweep |
| CoordinatorWork.SeasonStepSubmits | apps/tmdb-ingest/src/jobs.rs:2628-2711 | a season step submits exactly the seasons in reach of active television titles that are unenriched, or all of them in a full sweep |
| CoordinatorWork.PhaseGoesOn | apps/tmdb-ingest/src/jobs.rs:2875-2923 | a phase goes on from its last row; after its last batch television goes from enrichment to seasons, and everything else to the completion |
| CoordinatorWork.BusyPhaseWaits | apps/tmdb-ingest/src/jobs.rs:2842-2873 | a phase that sees active work submits its own job again with one poll more, and dead-letters at the last poll |
| CoordinatorWork.QuietCompletionEnds | apps/tmdb-ingest/src/jobs.rs:2806-2837 | a completion that sees no active work submits nothing, and moves the watermark exactly when no failure stands and the mode is not recovery |
| CoordinatorWork.RefusedBatchDeadLetters | apps/tmdb-ingest/src/jobs.rs:2875-2888 | a batch that is refused dead-letters its scan without submitting work |
| PhaseGates.PhaseWaitsForItsWork | apps/tmdb-ingest/src/jobs.rs:2994-3025 | a phase waits for exports and for the jobs of its own batches, seasons for season jobs as well, and not for refreshes of missing titles |
| PhaseGates.OtherWorkDoesNotBlock | apps/tmdb-ingest/src/jobs.rs:2994-3025 | no phase waits for scans, change pages, trends or the configuration |
| PhaseGates.BatchesDoNotOverlap | apps/tmdb-ingest/src/jobs.rs:2842-2888 | when an enrichment or season scan begins and does not wait, no export and no enrichment job is live, and for seasons no season job of a batch |
| PhaseGates.CompletionsSeeScansOnly | apps/tmdb-ingest/src/jobs.rs:2935-2946 | when a completion begins and does not wait, every live job is a scan |
| PhaseGates.ExportsHandOn | apps/tmdb-ingest/src/jobs.rs:4736-4797 | a full export goes on from its next offset, and at its end begins the enrichment of its medium from the first row |
| ScanCoordinator.ChainsEnd | apps/tmdb-ingest/src/jobs.rs:2723-2754 | a chain of successors makes at most as many moves as its measure, and its phase never goes back |
| ScanRuns.RunsStayAccepted | apps/tmdb-ingest/src/jobs.rs:4778-4789 | in every run from an accepted root, every queued scan payload is accepted, keeps to the root's mode and media, and has a batch to run in its phase |
| ScanRuns.OnlyOverflowsDeadLetter | apps/tmdb-ingest/src/jobs.rs:2756-2933 | in every such run, a scan step dead-letters only for a poll count at its maximum or a row out of range, never for its mode, phase or media |
| CoordinatorGate.NoMediumIsDropped | apps/tmdb-ingest/src/jobs.rs:1845-2045 | in every run of a scan with phases, whatever is cut off, run again, lost or retried, some live scan or full export has yet to hand each requested medium on, unless its completion has run or it was lost |
| CoordinatorGate.PlacesBalance | apps/tmdb-ingest/src/jobs.rs:4632-4661 | in every such run, the rows that have yet to hand a medium on, its completions, its losses and the carriers absorbed by a live job of the same key are together one more than the carriers submitted or completed twice and the retries |
| CoordinatorGate.EachMediumIsInOnePlaceIff | apps/tmdb-ingest/src/jobs.rs:1845-2045 | in every such run, a medium is in exactly one place after each action if and only if no step starts it again: none submits or completes a carrier for a job that has already handed the medium on or is over, unless a live job absorbs it, and no lost carrier is retried |
| CoordinatorGate.UncutRunsKeepOnePlace | crates/tmdb-jobs/src/worker.rs:464-491 | when no job begins again after a submission of its own, none goes on or is recorded after its claim, and no carrier is retried, each medium is in one place throughout |
| CoordinatorGate.CompletionProvesPhasesOverIff | apps/tmdb-ingest/src/jobs.rs:2771-2811 | in every run, when a completion finds no active work, the phases of each medium are over, or a scan of an earlier phase has yet to hand it on, or it was lost; for a medium in one place they are over if and only if neither of the others holds |
| CoordinatorGate.SingleMediumCompletionIsLastIff | apps/tmdb-ingest/src/jobs.rs:2935-2946 | in every run of a scan of one medium, a completion that has not handed the medium on is the last to do so if and only if every repetition of a carrier was absorbed |
| CoordinatorGate.SingleMediumCompletionIsSound | apps/tmdb-ingest/src/jobs.rs:2935-2946 | in every run of such a scan that is not cut off, all other scans have handed the medium on when the completion begins |
| ScanRunEscapes.CompletionBeginsBesideItsParent | apps/tmdb-ingest/src/jobs.rs:2935-2946 | an uncut run of a scan of one medium in which the completion passes the gate while the enrichment scan that submitted it is still active |
| ScanRunEscapes.LostOutcomeCompletesTwice | crates/tmdb-jobs/src/worker.rs:464-491 | a run in which the success of the enrichment scan is never recorded, the medium completes, and the enrichment runs again and submits a second completion |
| ScanRunEscapes.CutStepStartsTwice | apps/tmdb-ingest/src/jobs.rs:1845-2045 | a run in which a root is cut off between the submissions of its two media and, run again after the first has moved on, starts that medium a second time |
| ScanRunEscapes.CompletionOverlooksCoordinators | apps/tmdb-ingest/src/jobs.rs:2935-2946 | a run in which the movie completion advances while the television coordinator is still queued |
| ScanRunEscapes.CompletionOverlooksLostScans | apps/tmdb-ingest/src/jobs.rs:2948-2980 | a run in which it advances after the television coordinator was dead-lettered or cancelled |
| ScanRunEscapes.RetryCountsTwice | crates/tmdb-db/migrations/0022_admin_operations.sql:289-372 | a run in which an operator retries the lost coordinator, so that the medium was lost and is carried again |
| KeysetScan.TakePage | apps/tmdb-ingest/src/jobs.rs:2487-2497 | reading one row more than a page yields the smallest qualifying keys above the cursor, and `done` exactly when none are left |
| KeysetScan.EnqueueBatch | apps/tmdb-ingest/src/jobs.rs:2467-2711 | the three batches return such a page with a cursor that fits, and fail exactly for a bad cursor, mode or row |
| CatalogBatches.BatchIsExact | apps/tmdb-ingest/src/jobs.rs:2467-2711 | a batch holds exactly the rows above its cursor that are wanted, up to its own end, at most 500, 100 or 25, told from the columns: active, of the right medium, and not censused or not enriched unless the mode is a full sweep |
| CatalogBatches.ScannableIff | apps/tmdb-ingest/src/jobs.rs:2552-2564 | a batch runs for a cursor of 63 bits and, but for missing titles, in the modes with phases |
| CatalogBatches.RowsFitIff | apps/tmdb-ingest/src/jobs.rs:2567-2580 | it is refused exactly for a row whose numbers do not fit 32 bits |
| CatalogBatches.WantedRowsAreSelectedOnce | apps/tmdb-ingest/src/jobs.rs:2467-2711 | over a whole scan of a changing table, a row that is wanted throughout is selected exactly once |
| CatalogBatches.SelectedRowsWereWanted | apps/tmdb-ingest/src/jobs.rs:2467-2711 | and every row that is selected was wanted when its batch was read |
| CatalogBatches.UnenrichedTitlesAreReached | apps/tmdb-ingest/src/jobs.rs:2552-2561 | a finished scan of any mode selects once every title that stays active and unenriched |
| CatalogBatches.EnrichedTitlesAreSwept | apps/tmdb-ingest/src/jobs.rs:2543-2551 | a title that stays active and enriched is selected once by a full sweep and never by another mode |
| KeysetScan.NoDuplicates | apps/tmdb-ingest/src/jobs.rs:2532-2619 | over any sequence of table states, the whole selection ascends from the cursor |
| KeysetScan.PageIsExact | apps/tmdb-ingest/src/jobs.rs:2628-2711 | each page selects exactly the rows of its moment between its cursor and the next |
| KeysetScan.StableRowsAreSelectedOnce | apps/tmdb-ingest/src/jobs.rs:2467-2530 | a row that qualifies throughout a finished scan is selected exactly once |
| KeysetScan.DoneIsExact | apps/tmdb-ingest/src/jobs.rs:2493-2495 | a page says `done` if and only if it leaves no qualifying row, and otherwise is full and moves the cursor |
| KeysetScan.ListJobs | apps/tmdb-api/src/admin_api.rs:670-719 | an unknown cursor is refused; otherwise the page of the filtered jobs older than it |
| KeysetScan.ListKeyOrder | apps/tmdb-api/src/admin_api.rs:693-700 | the list key orders jobs by descending creation time, then descending id, without ties |
| KeysetScan.ListedAreMatches | apps/tmdb-api/src/admin_api.rs:682-719 | the jobs listed are those that the filter lets through |
| KeysetScan.NewJobsDoNotDisturb | apps/tmdb-api/src/admin_api.rs:682-719 | jobs submitted after the cursor's neither repeat nor hide the jobs still to be listed |
| ExportScan.LinesPartitionTheFile | apps/tmdb-ingest/src/jobs.rs:4560-4568 | the lines read one after another are the whole file |
| ExportScan.LinesAreLines | apps/tmdb-ingest/src/jobs.rs:4560-4568 | each line but the last ends at its only newline |
| ExportLines.LineIsIdIff | apps/tmdb-ingest/src/jobs.rs:4569-4576 | a line is read as an id exactly when it is the UTF-8 text of a positive 64-bit number with white space around it |
| ExportLines.BadLineFails | apps/tmdb-ingest/src/jobs.rs:4562-4576 | a line that is not UTF-8 is a storage error, to be read again; any other line that is no id ends the export for good |
| ExportScan.ReadExportIdBatch | apps/tmdb-ingest/src/jobs.rs:4544-4588 | the loop returns the ids of the next 500 lines, the offset after them and whether the file ended, or the first line's error |
| ExportScan.UnfinishedBatch | apps/tmdb-ingest/src/jobs.rs:4558-4587 | a batch that is not the last has exactly 500 ids and moves at least 500 bytes, to a line start before the end |
| ExportScan.ChunkedScanIsOnePass | apps/tmdb-ingest/src/jobs.rs:4736-4797 | the chain of batches yields every id once and in order; on a bad line it fails as one pass does, after the complete batches before it |
| ExportScan.OffsetsAreLineStarts | apps/tmdb-ingest/src/jobs.rs:4761-4776 | every offset in a chain is a line start and each is at least 500 bytes past the one before |
| ExportScan.ReadBack | apps/tmdb-ingest/src/jobs.rs:4569-4576 | a file of ids written one to a line is read back exactly |
| FanOut.CaptureOptionalDocuments | apps/tmdb-ingest/src/jobs.rs:633-678 | for every completion order: Ok exactly when nothing but not-found fails, then the input-order result; else some task's error; after each join the number running is 20, or what is left if less |
| FanOut.PoolStep | apps/tmdb-ingest/src/jobs.rs:651-672 | joining one task and spawning the next keeps the pool full and its tasks accounted for |
| FanOut.PoolAddsUp | apps/tmdb-ingest/src/jobs.rs:637-672 | waiting, running and joined tasks add up to the input, and an empty pool has joined all |
| FanOut.SortedIsInOrder | apps/tmdb-ingest/src/jobs.rs:673-677 | results sorted by index are those of asking one by one |
| FanOut.JoinEpisodes | apps/tmdb-ingest/src/jobs.rs:1060-1081 | for every completion order: Ok exactly when all episodes succeed, then each in its place |
| FanOut.HydrateEpisodes | apps/tmdb-ingest/src/jobs.rs:1060-1087 | the list keeps its length, each episode its place, and documents come in episode order |
| LeasedWorker.ReachableHasInv | crates/tmdb-jobs/src/worker.rs:206-291 | every run of any number of workers, lost claims and lost replies included, keeps the claim, task, call, cancellation and log invariants |
| LeasedWorker.AtMostOneTaskOfEachKind | crates/tmdb-jobs/src/worker.rs:332-406 | a worker has at most one live execution and one live heartbeat, and none while it is between claims |
| LeasedWorker.AtMostOneCallPerClaim | crates/tmdb-jobs/src/worker.rs:464-582 | each claim makes at most one outcome call, and none after lease loss or shutdown |
| LeasedOutcomes.ResultIsRecorded | crates/tmdb-jobs/src/worker.rs:387-491 | in every run, a call that takes effect, in time or late, records the result with which the execution of its claim ended: success as success, a permanent failure as a dead letter, anything else and a panic as a retry after the delay, or as a dead letter when attempts are used up, and all of them as a cancellation if one was requested |
| LeasedOutcomes.OneResultPerClaim | crates/tmdb-jobs/src/worker.rs:345-400 | in every run, the execution of a claim ends at most once |
| LeasedOutcomes.EveryResultIsCalledFor | crates/tmdb-jobs/src/worker.rs:347-406 | in every run, a worker about to leave a claim has called for its outcome exactly when its execution had ended or its cancellation was seen |
| LeasedOutcomes.EndedHeartbeatsAreTold | crates/tmdb-jobs/src/worker.rs:408-462 | in every run, a worker whose heartbeat ended while it waits knows of a lost lease or a cancellation |
| LeasedOutcomes.ShutdownsAreSeen | crates/tmdb-jobs/src/worker.rs:357-366 | in every run, a worker told to shut down can abort its execution for that reason from then on |
| LeasedOutcomes.StoppedWorkersAreIdle | crates/tmdb-jobs/src/worker.rs:206-291 | in every run, a worker that stopped has no task left and claims nothing again |
| LeasedOutcomes.FailedCallsChangeNoRow | crates/tmdb-jobs/src/worker.rs:464-582 | a call whose reply is an error changes no row at that moment |
| LeasedOutcomes.HeartbeatsExtendTheLease | crates/tmdb-db/migrations/0003_jobs_hardening.sql:429-475 | a heartbeat in time keeps the job with its worker, and from others, for the whole new lease |
| QueueRules.JobsEndForAReason | crates/tmdb-db/migrations/0003_jobs_hardening.sql:477-649 | in every run, no job is tried more often than it may be; it succeeded because an execution of it did, is a dead letter because one failed for good or its attempts are used up, waits for a retry because one failed otherwise, and is cancelled because that was asked for |
| QueueRules.CancellationsAreHeeded | crates/tmdb-db/migrations/0004_jobs_rollout_repair.sql:338-413 | in every run, a job whose cancellation was asked for while it was active is cancelled, or still running with the request on it |
| QueueRules.ActiveJobsAreDistinct | crates/tmdb-db/migrations/0003_jobs_hardening.sql:150-248 | in every run, no two active jobs are for the same payload |
| QueueRules.SubmissionsAreQueued | crates/tmdb-db/migrations/0003_jobs_hardening.sql:150-248 | a submission leaves an active job for its payload, new ones with the attempts asked for, and touches no other row |
| QueueRules.ClaimsWaitTheirTurn | crates/tmdb-db/migrations/0029_media_scan_control.sql:406-610 | a job is claimed only at its time, after its last lease ran out and with an attempt left, and is then held by the claimant until the new lease ends |
| LeasedWorker.AtMostOneTerminalChange | crates/tmdb-jobs/src/repository.rs:126-313 | each job takes at most one terminal change, nothing follows it, and no claim records twice |
| LeasedWorker.OnlyTheClaimInForceRecords | crates/tmdb-jobs/src/worker.rs:310-462 | an outcome recorded by a call that its worker waits for is made under the live lease of the newest claim; all other workers on that job are on older claims |
| LeasedWorker.LateOutcomeIsInForceIff | crates/tmdb-jobs/src/repository.rs:126-313 | an outcome that takes effect after its worker has moved on is recorded under the claim in force if and only if that worker made no later claim of the job |
| LeasedEscapes.LateOutcomeEndsLaterClaim | crates/tmdb-jobs/src/repository.rs:126-313 | a run in which a late outcome of the first claim ends the job while the second execution by the same worker is under way |
| LeasedWorker.CancelledWorkNeverSucceeds | crates/tmdb-jobs/src/worker.rs:345-400 | an outcome recorded after a cancellation reached the worker, even one that takes effect late, ends the job cancelled |
| LockOrder.LeqTotal | apps/tmdb-ingest/src/catalog_locks.rs:83-92 | advisory names, then rows by table and id, form a total order |
| LockOrder.LeqTransitive | apps/tmdb-ingest/src/catalog_locks.rs:83-92 | that order is transitive |
| LockOrder.ReachableIsExclusive | apps/tmdb-ingest/src/catalog_locks.rs:93-118 | no lock is ever held twice |
| LockOrder.NoDeadlock | apps/tmdb-ingest/src/catalog_locks.rs:83-118 | in every reachable state of disciplined writers with an unfinished one, some writer can acquire or commit |
| LockOrder.AllCanFinish | apps/tmdb-ingest/src/catalog_locks.rs:83-118 | from every such state all writers can finish without a rollback |
| LockOrder.CrossedPlansDeadlock | apps/tmdb-ingest/src/catalog_write.rs:958-961 | two writers that take two locks in opposite orders reach a state in which neither can go on |
| CatalogWrite.InsertKeepsAscending | apps/tmdb-ingest/src/catalog_locks.rs:173-190 | inserting a resource name keeps the set sorted without repeats |
| CatalogWrite.MovieWriteResources | apps/tmdb-ingest/src/catalog_locks.rs:19-34 | succeeds exactly when every id and the language are valid, with the title's name |
| CatalogWrite.TvWriteResources | apps/tmdb-ingest/src/catalog_locks.rs:37-51 | the same, with the names of the title and of each season, in order |
| CatalogWrite.SeasonWriteResources | apps/tmdb-ingest/src/catalog_locks.rs:54-66 | succeeds exactly when every episode and credit id is valid, with the names of the show, season and episodes |
| CatalogWrite.TouchSorted | apps/tmdb-ingest/src/catalog_write.rs:521-566 | a sorted replace loop fails only on an invalid id, keeps the lock order, and touches exactly the named rows |
| CatalogWrite.TouchSeasons | apps/tmdb-ingest/src/catalog_write.rs:668-710 | the season summaries fail exactly on a bad number or date, with the rows of the seasons of smaller ids, and of none of larger, locked by then; all these rows are named beforehand |
| CatalogWrite.PersistMovie | apps/tmdb-ingest/src/catalog_write.rs:125-216 | succeeds exactly when validation does, never fails once begun, and takes disciplined locks on exactly the rows of its fields |
| CatalogWrite.PersistTv | apps/tmdb-ingest/src/catalog_write.rs:221-324 | once begun it fails exactly on a season summary's number or date; its locks are disciplined, exactly those of its fields when it succeeds and among them when it fails |
| CatalogLanguages.MovieLanguageRow | apps/tmdb-ingest/src/catalog_write.rs:1112-1120 | the language row of a movie write is the two or three small letters that its field spells up to case and surrounding white space, and there is no other |
| CatalogLanguages.TvLanguageRow | apps/tmdb-ingest/src/catalog_write.rs:1112-1120 | the same for a television write |
| CatalogLanguages.LanguageIsValidIff | apps/tmdb-ingest/src/jobs.rs:3141-3151 | a language field is accepted exactly when it is absent, blank, or spells such a code |
| CatalogLanguages.SameLanguageSameRow | apps/tmdb-ingest/src/jobs.rs:3141-3151 | fields that differ only in ASCII case and surrounding white space touch the same row |
| CatalogWrite.PersistSeason | apps/tmdb-ingest/src/catalog_write.rs:329-392 | which failures come before and after the transaction begins, and the locks in the order they are taken |
| CatalogWrite.PersistChanges | apps/tmdb-ingest/src/catalog_write.rs:395-416 | succeeds exactly when every id is valid; every title row is under its own name |
| CatalogWriters.PartIsDisciplined | apps/tmdb-ingest/src/catalog_write.rs:521-566 | what is left of an ordered plan when rows that need no change are skipped, or the transaction stops early, is ordered as well |
| CatalogWriters.BeginWriters | apps/tmdb-ingest/src/catalog_write.rs:125-416 | from the start of any movie, television and change writes that begin, failing ones and ones that skip unchanged rows or stop early included, every interleaving and rollback leaves a state in which the others can go on and all can finish |
| CatalogWrite.SeasonDisciplinedIff | apps/tmdb-ingest/src/catalog_write.rs:387-389 | a season write keeps the lock order exactly when its people ascend across its episodes |
| CatalogWrite.SeasonWritersCanDeadlock | apps/tmdb-ingest/src/catalog_write.rs:946-991 | two season writes that name two people in opposite episode orders can block each other |
| CatalogWrite.NamesDisjoint | apps/tmdb-ingest/src/catalog_locks.rs:134-136 | season writes of different shows, seasons and episodes share no advisory name |
| Sorting.SortPermutes | apps/tmdb-ingest/src/catalog_write.rs:531-532 | sorting ids loses and adds none |
| RequestGate.Gate.Acquire | crates/tmdb-upstream/src/policy.rs:159-178 | each call reserves the next start of the schedule and is told to wait until then |
| RequestGate.Gate.constructor | crates/tmdb-upstream/src/policy.rs:150-157 | a new gate has an empty schedule that starts now, with the interval of its rate |
| RequestGate.StartsFollowClocks | crates/tmdb-upstream/src/policy.rs:166-174 | a reserved start is never before its caller's clock |
| RequestGate.StartsAreNotDelayed | crates/tmdb-upstream/src/policy.rs:166-174 | below overflow, each start is its caller's clock or the slot that the start before it left |
| RequestGate.PolicyIsAcceptedIff | crates/tmdb-upstream/src/policy.rs:27-44 | a policy is accepted exactly from 1 to 40 requests a second and 1 to 256 at once, and otherwise its first fault is named |
| RequestGate.StartsAreSpacedIff | crates/tmdb-upstream/src/policy.rs:169-173 | starts are one interval apart exactly when no slot but the last runs past representable time |
| RequestGate.OverflowBunches | crates/tmdb-upstream/src/policy.rs:171-173 | two calls at the end of representable time start at once |
| RequestGate.RateIsBounded | crates/tmdb-upstream/src/policy.rs:150-178 | for every accepted policy and schedule, a half-open second holds at most the rate, or one more when the rate does not divide a second |
| RequestGate.BoundIsReached | crates/tmdb-upstream/src/policy.rs:150-157 | a burst of calls reaches that bound for every allowed rate |
| Spacing.WindowBound | crates/tmdb-upstream/src/policy.rs:141-178 | a window holds at most one spaced time for each started gap |
| HeartbeatThrottle.ClaimsAreSpacedIff | apps/tmdb-ingest/src/jobs.rs:562-573 | over every interleaving, successful claims are an interval apart exactly when none before the last saturated the slot |
| HeartbeatThrottle.ClaimsPerWindow | apps/tmdb-ingest/src/jobs.rs:534-560 | at most one heartbeat write for each started interval of a window |
| HeartbeatThrottle.NoLostUpdate | apps/tmdb-ingest/src/jobs.rs:562-573 | below saturation, a successful swap proves nothing was written since the thread's load, and raises the slot |
| HeartbeatThrottle.OneWinnerPerVersion | apps/tmdb-ingest/src/jobs.rs:565-572 | below saturation, of two threads ready to swap on one value the second fails once the first has swapped |
| HeartbeatThrottle.LoneThreadClaimsIff | apps/tmdb-ingest/src/jobs.rs:562-573 | a thread that is not interfered with claims exactly when nothing was claimed, an interval has passed, or the clock is at its end |
| HeartbeatThrottle.LosingMeansAnotherClaimed | apps/tmdb-ingest/src/jobs.rs:562-573 | a thread whose time had come and whose swap fails was overtaken by another claim |
| HeartbeatThrottle.SaturationClaimsTwice | apps/tmdb-ingest/src/jobs.rs:568-569 | at the end of the clock one time is claimed twice |
| LocalMedia.CollectMediaSourceKeys | apps/tmdb-api/src/tmdb_v3_api.rs:260-282 | the walk adds exactly the image keys that the tree mentions |
| LocalMedia.InsertLocalMediaPaths | apps/tmdb-api/src/tmdb_v3_api.rs:284-327 | the editing walk yields the annotated tree |
| LocalMedia.AnnotatedField | apps/tmdb-api/src/tmdb_v3_api.rs:296-323 | which keys an annotated object has and what each holds |
| LocalMedia.FieldsPairUp | apps/tmdb-api/src/tmdb_v3_api.rs:206-213 | each local field belongs to one upstream field and is not one itself |
| LocalMediaUrls.LocalUrlIff | apps/tmdb-api/src/tmdb_v3_api.rs:296-323 | a field gets a URL exactly when its key is well formed and known and its row has a safe path and a digest; the URL is the base, a slash, the path, and the first sixteen characters of the digest as version; otherwise it gets null |
| LocalMediaUrls.UrlNamesOneFile | apps/tmdb-api/src/tmdb_v3_api.rs:296-323 | under one base a URL names one path and version |
| LocalMediaUrls.SafePathIff | apps/tmdb-api/src/tmdb_v3_api.rs:343-352 | a path is safe exactly when it is relative, at most 512 bytes of harmless characters, and no stretch between its slashes is empty or names a directory in place or above |
| LocalMediaUrls.SourceKeyIff | apps/tmdb-api/src/tmdb_v3_api.rs:335-341 | a source key is a slash and harmless characters, at most 512 bytes, without two dots in a row |
| LocalMediaUrls.DigestIff | apps/tmdb-api/src/tmdb_v3_api.rs:303-306 | a digest is 64 hexadecimal digits, small or capital |
| LocalMediaUrls.TableHasFirstReady | apps/tmdb-api/src/tmdb_v3_api.rs:236-255 | the table of local paths has, for each key, the first row that is ready and has a path and a digest |
| LocalMedia.OnlyMentionedKeysMatter | apps/tmdb-api/src/tmdb_v3_api.rs:228-258 | two path tables that agree on the collected keys annotate every tree alike |
| LocalMedia.QueriedTableAgrees | apps/tmdb-api/src/tmdb_v3_api.rs:236-255 | the first usable row of each requested key is the same in the query and in the whole table |
| LocalMedia.AddLocalMediaPaths | apps/tmdb-api/src/tmdb_v3_api.rs:228-258 | looking up only the mentioned keys gives the answer of a table of every asset |
| LocalMedia.AnnotateTwice | apps/tmdb-api/src/tmdb_v3_api.rs:284-327 | annotating is idempotent |
| LocalMedia.EraseUndoesAnnotate | apps/tmdb-api/src/tmdb_v3_api.rs:284-327 | on a tree without local fields, erasing the added ones returns the original |
| JobListQuery.DecodeQueryComponent | apps/tmdb-api/src/admin_api.rs:2075-2095 | the loop decodes a component or refuses it |
| JobListQuery.DecodeIff | apps/tmdb-api/src/admin_api.rs:2075-2105 | a component decodes to a string exactly when it is one of the form-encodings of its UTF-8 bytes |
| JobListSettings.SettingIff | apps/tmdb-api/src/admin_api.rs:2019-2059 | a component sets something exactly when it is an encoded key, an equals sign and an encoded value that say so: a limit from 1 to 100, a cursor of at most 64 bytes, a status by its name, or a job type of at most 128 bytes without control characters |
| JobListSettings.HexIsPlace | apps/tmdb-api/src/admin_api.rs:2098-2105 | the value of a hexadecimal digit is its place among the digits, small or capital |
| JobListSettings.SplitJoins | apps/tmdb-api/src/admin_api.rs:2019-2022 | the components have no ampersand, and joined by ampersands are the query |
| JobListSettings.QueryBounds | apps/tmdb-api/src/admin_api.rs:2003-2015 | a query above 2048 bytes is refused, none at all asks for fifty jobs of every kind, and no other query is refused but for its settings |
| JobListQuery.ParseJobList | apps/tmdb-api/src/admin_api.rs:2003-2061 | the loop yields the request that recording the settings in turn gives, or refuses the query |
| JobListQuery.QueryMeans | apps/tmdb-api/src/admin_api.rs:2019-2059 | a query is accepted exactly when every setting is valid and none repeats, and then all given settings are in force |
| JobListQuery.OrderDoesNotMatter | apps/tmdb-api/src/admin_api.rs:2003-2061 | permuting the components changes neither the request nor its refusal |
| Utf8.DecodeEncode | apps/tmdb-api/src/admin_api.rs:2095-2095 | decoding an encoded string returns it |
| Utf8.EncodeDecode | apps/tmdb-ingest/src/jobs.rs:4562-4564 | bytes that decode are the encoding of what they decode to |
| Characters.LengthOfEncoding | apps/tmdb-api/src/admin_api.rs:2030-2050 | the length in bytes that the checks take is the length of the UTF-8 encoding |
| Characters.WhitespaceIsListed | apps/tmdb-ingest/src/jobs.rs:4569-4571 | trimming takes off exactly the 25 white-space characters of Unicode |
| Characters.ControlsAreRanges | apps/tmdb-api/src/tmdb_v3_api.rs:335-352 | the control characters are the 65 of the category Cc |
| Text.DecimalInjective | apps/tmdb-ingest/src/catalog_locks.rs:134-136 | numbers are told apart by their decimal texts in resource names |
| Text.DecimalValue | apps/tmdb-ingest/src/jobs.rs:4569-4575 | the decimal text of a number parses to it |
| Numerals.UnsignedIff | apps/tmdb-ingest/src/jobs.rs:4569-4575 | a text is read as a number exactly when it is an optional plus sign and digits whose number fits the type |
| JpegScan.ParseJpegDimensions | apps/tmdb-images/src/image.rs:1586-1630 | the loop ends with all reads in bounds and agrees with the recursive reading |
| JpegScan.ScanIff | apps/tmdb-images/src/image.rs:1586-1634 | dimensions are found exactly when the bytes are a start of image, skippable pieces and a frame header with them |
| JpegScan.MarkersOfTable | apps/tmdb-images/src/image.rs:1601-1634 | which markers end the scan, have no segment, or start a frame, by table B.1 of ITU-T T.81 |
| JpegScan.ConformingHeadersAreRead | apps/tmdb-images/src/image.rs:1591-1629 | every header conforming to section B.1.1.2 of ITU-T T.81 gives its frame's dimensions |
| JpegScan.PrefixIsNotRequired | apps/tmdb-images/src/image.rs:1592-1600 | a header without marker prefixes, which does not conform, is read as well |
| PublishGuarantees.DestinationIsNeverPartial | apps/tmdb-images/src/image.rs:1049-1107 | through failures, crashes and power losses that restore earlier directory states, the destination is as it was or one publisher's whole body |
| PublishGuarantees.SuccessHoldsUntilPowerLoss | apps/tmdb-images/src/image.rs:1057-1103 | while the power stays on, after a reported success the destination holds a whole body |
| PublishGuarantees.DurableIff | apps/tmdb-images/src/image.rs:1074-1103 | the destination holds a whole body for good if and only if every directory state that a power loss may restore has one |
| PublishGuarantees.PersistedSuccessIsDurable | apps/tmdb-images/src/image.rs:1093-1103 | once the directory has reached the disk, a success before any power loss lasts through everything later |
| PublishGuarantees.PowerLossUndoesSuccess | apps/tmdb-images/src/image.rs:1093-1103 | a run in which a reported success is undone by a power loss, and the temporary file is back |
| PublishGuarantees.SameImageIsThere | apps/tmdb-images/src/image.rs:1049-1107 | among publishers of one image, after a success and until a power loss, or for good once durable, the destination is that image |
| PublishGuarantees.SpecialDestinationIsKept | apps/tmdb-images/src/image.rs:1057-1072 | in every run, a destination that is a directory, a link or another special file stays, and no publisher reports success |
| PublishGuarantees.NoTemporaryFileIsLeft | apps/tmdb-images/src/image.rs:1072-1106 | a publisher that ends without crashing, and whose cleanup works, leaves no temporary file until a power loss |
| PublishGuarantees.GoneForGoodIff | apps/tmdb-images/src/image.rs:1089-1106 | the temporary file of an ended or crashed publisher never comes back if and only if no restorable directory state has it |
| MediaCompletion.CompleteMeansAdmitted | apps/tmdb-images/src/requests.rs:188-226 | over all claims, waits, errors, lost replies and crashes, every lasting source of a complete request was admitted |
| MediaCompletion.CompletingPassLinksAllIff | crates/tmdb-db/migrations/0052_on_demand_media_requests.sql:674-716 | when a worker is about to mark the request complete, every lasting source is linked if and only if its batch gave no lasting source a number taken at its claim |
| MediaCompletion.NoSourceIsSkipped | crates/tmdb-db/migrations/0052_on_demand_media_requests.sql:795-801 | in every run whose claims find no number above the saved cursor, every lasting source of a complete request is linked |
| MediaCompletion.CleanReleaseStaysClean | apps/tmdb-images/src/requests.rs:205-236 | a pass from such a claim that ends by its own release leaves no number above the new cursor |
| MediaCompletion.LinksAreForGood | crates/tmdb-db/migrations/0052_on_demand_media_requests.sql:184-209 | links are never changed or removed by later steps, and no source is linked twice |
| MediaCompletion.CursorNeverGoesBack | crates/tmdb-db/migrations/0052_on_demand_media_requests.sql:733-760 | no step lowers the saved cursor |
| MediaCompletion.CompletionIsLostIff | apps/tmdb-images/src/requests.rs:99-113 | a complete request becomes incomplete exactly when its holder releases it without having come to the end of the sources; its sources stay admitted |
| MediaCompletion.CompleteUntilReopened | apps/tmdb-images/src/requests.rs:92-137 | in a run without such a release a complete request stays complete |
| MediaCompletion.ClosedIsFinal | crates/tmdb-db/migrations/0052_on_demand_media_requests.sql:822-919 | once a request is cancelled, or over with no worker left to refresh it, its cursor, links and completeness never change |
| MediaCompletion.CancelIsFinal | crates/tmdb-db/migrations/0052_on_demand_media_requests.sql:822-919 | a cancellation takes the request from its holder, and in every run from there nothing is linked or recorded for it |
| MediaCompletion.CapacityWaitKeepsProgress | apps/tmdb-images/src/requests.rs:205-236 | a worker that waits for capacity leaves the cursor after the rows it admitted and the request incomplete |
| MediaCompletion.ExpiredLeaseIsClaimable | crates/tmdb-db/migrations/0052_on_demand_media_requests.sql:416-470 | once a lease has run out, any worker that is idle or starts anew may claim the open request, its last holder too |
| MediaEscapes.DisplacedSourceIsLost | crates/tmdb-db/migrations/0052_on_demand_media_requests.sql:795-801 | a run that ends complete, over and closed with an admitted source that is not linked |
| MediaEscapes.CompleteRequestReopens | apps/tmdb-images/src/requests.rs:99-113 | a run in which a complete request is claimed again and an error marks it incomplete |
| MediaCompletion.CountsAddUp | apps/tmdb-images/src/requests.rs:192-226 | within a batch, found is queued plus reused, and is the number of rows admitted so far |

## Left out

- The SQL bodies of the `ops.*` and `assets.*` functions are modelled by their effect on the rows that matter here, each call as one step; a root's check for active work and its insertion are one step as well.
- Liveness and real time: time passes in arbitrary ticks, and nothing is said about fairness, sleeping or latency.
- `ScanQuiescence` assumes that child submission is enabled, and that finished jobs are not pruned during a scan; it models the `daily_sync` mode, and `ScanCoordinator` the payloads of all modes.
- Deduplication keys are taken to be as distinct as the payloads they are made from, and advisory names not to collide once hashed.
- LeasedWorker.AtMostOneTerminalChange: workers have distinct ids, because the queue tells holders apart by name only.
- The worker's polling backoff, capacity permits and log lines: a claim is a step that may happen whenever a job is claimable.
- `LeasedWorker` takes the retry delay of a call as a parameter; a panic is retried there like any other retryable failure, without the fixed second that the worker asks for.
- Detail, link and facet rows of a title are written only under the title's advisory name and are not listed as locks; job rows enqueued inside a title's transaction are not modelled as locks either.
- CatalogWrite.PersistSeason: the lock plan of a season is not disciplined in general, see `SeasonDisciplinedIff`.
- `ScanCoordinator` represents a text that reads as a date by its day number and leaves out the export URL and its check; child submission is enabled.
- `ScanRuns` lets an execution read what it reads once, at its beginning, and submits its children one at a time, which admits every cut between the transactions of the code and more. Times, leases and attempt limits become the choice of which executions begin, go on, are recorded or lost.
- KeysetScan.EnqueueBatch: the selected rows are handed in as what the query returns; database and capacity errors, which retry with the same cursor, are not modelled.
- ExportScan.ReadExportIdBatch: the file opens, seeks and reads without an operating-system error, and is the same file for every batch of a chain.
- The concurrency semaphore of the request gate and the sleep after a reservation: `RequestGate` bounds reserved starts, and a sleep may end late.
- `LocalMedia` returns an edited tree where the source edits in place; JSON numbers are kept as text.
- The UUID parser of the job list is a parameter, and so is every upstream answer of a fan-out.
- `AtomicPublish` takes equal digests to mean equal bodies, leaves out directory preparation and link checks, and lets a power loss restore directory states only in the order in which they came about.
- MediaCompletion.NoSourceIsSkipped: says nothing of sources that appear or vanish during the run; image jobs, gallery numbers and deletions are not modelled, and a clash of gallery numbers is one of the errors an admission may meet.
- PNG and WebP headers, the full decoder, downloads, redirects and proxy fallback of the image service.
- Upstream retry backoff, configuration, secrets, HTTP routing, search and rating queries, metrics and migrations: plumbing or easy members.
