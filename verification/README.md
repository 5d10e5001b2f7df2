# Recruit-ME, modelled and proved

A Dafny model of the parts of Recruit-ME where many steps, many processes or many numbers have to
agree: the run executor and its recovery from crashes, the hunt it runs, the rate limiter, batched
matching, refresh-token rotation between server and browser, run creation and scheduling, the live
event stream, and sealed site credentials. `dafny verify dfyconfig.toml` checks all of it.

| file | what it holds |
|---|---|
| `RunSteps.dfy` | an execution of a run as atomic steps between database commits and external effects |
| `RunInvariants.dfy` | what holds of every run in every reachable world: notifications, lifecycle, retries |
| `RunRefinement.dfy` | crash recovery refines one clean execution |
| `RunReports.dfy` | when `finished_at` agrees with the status and the mailed report covers the run, exactly; what a run's row tells |
| `RunRows.dfy` | what every match row shows and why it was kept |
| `RunMails.dfy` | the crash window of the notification, with two mails for one run |
| `RunStream.dfy` | the event stream of a run, watched while it is executed and retried |
| `RunWorker.dfy` | `execute_run` as a class with a session, shown to take exactly those steps under any faults |
| `Engine.dfy`, `EngineTypes.dfy` | scraping, deduplication, the threshold filter, running the hunt again |
| `Matching.dfy` | batched scoring, the argmax it must agree with, the keyword fallback, the skill tally |
| `TokenBucket.dfy`, `Policies.dfy` | the Lua script, its runs, key expiry, the wait hint, the acquire loop |
| `TenantBound.dfy` | when the window bound holds for one tenant, exactly |
| `AuthTokens.dfy` | refresh and one-time tokens, as a service class and as histories of requests |
| `RefreshClient.dfy` | the browser's single-flight refresh composed with the server over one cookie jar |
| `RunCreation.dfy` | API creates and scheduler ticks, interleaved, with locks, leases and a queue |
| `EventStream.dfy` | the server's poll loop and printer, the browser's splitter and parser |
| `Credentials.dfy` | versioned master keys, sealing, verification, loading for a run |
| `Arithmetic.dfy`, `Wrappers.dfy` | facts about products and quotients; optional values |

## How it is put together

Code that changes things step by step is a class whose methods carry the loops and assignments of the
source, each proved against a function of the old state. Where several processes interleave, that
function is a step of a transition system (`Step`), and the theorems are about all sequences of steps
(`Steps`); the class methods are proved to take exactly such steps. `Worker.ExecuteRun` equals
`Delivered`, a function of the world and of the faults met at each point of the execution.

Units are exact. A token is 60000 units and a rate of `rpm` a minute refills `rpm` units each
millisecond, so the whole script is integer arithmetic. Percentages of the keyword fallback are exact
floors. The program computes both in doubles.

Taken as given: Redis scripts and database transactions are atomic and commits have a definite
outcome; hashes and raw tokens are identified with their rows; opening undoes sealing under the same
key and nonce (ChaCha20-Poly1305, section 2.8 of RFC 8439); decoding undoes encoding for JSON, and
an encoded object is one line between braces. Scrapers, LLM replies, clocks, the mail server and the
object store are parameters: an arbitrary answer, or a fault.

Rotation follows the pattern of section 4.14.2 of RFC 9700, and the stream the format of section 9.2.6
of the WHATWG HTML Living Standard.

## Where code and documentation disagree

The model follows the code. Each of these is a lemma.

- The executor's documentation says at most one email for each run. A mail is sent before the commit
  that records it, so an execution that dies in between is followed by a second one:
  `NotificationAccounting` counts them, `SecondMail` and
  `TwoMailsReachable` show them.
- The terminal check is said to make redelivery a no-op. An exception raised before that check reaches
  the failure handler, which does not check: `TerminalLeftExactly`, with the reachable example
  `EarlyRaiseRequeuesFinished`.
- `max_attempts` bounds retries only of executions that passed their first commit:
  `BoundedRetries` and `EarlyRetriesUnbounded`.
- A cancel during an execution is overwritten if that execution reaches its last commit or its failure
  handler, and lasts if it dies: `CancelKeptExactly`, with the reachable example `CancelInFlightIsLost`.
- Token reuse is reported as "all sessions revoked". The request fails and its session is rolled back,
  so no session is: `ReuseIsRolledBack`.
- The limiter's keys expire after 300 s. That is harmless when every burst is at most `5 * rpm`, which
  every row of the table meets: `ExpiryUnobservable`, `TableRefillsWithinTtl`. For the window bound the
  condition is exact for the site-wide bucket (`SiteBoundExactly`) and for a tenant at a site of at least
  its burst (`TenantBoundAtLargeSite`); a small and slow site makes a larger tenant burst harmless
  (`SlowSiteBounds`, `TenantBoundExactly`).
- A run that has notified its user can be put back in the queue by an exception before its terminal check
  and then save rows that no mail reports: `ReportLeftExactly`, with the reachable `UntoldRowReachable`.
- The client's comment says that refreshes must not replay a revoked token. With one tab and every answer
  delivered none replays a rotated one, but one ended by a credential change elsewhere is replayed:
  `ReuseExactly`, with the reachable example `CredentialChangeReuse`.
- The event stream resumes by position, and a retry clears the rows: `RetryLosesRows`, and exactly when
  rows are lost, `StreamShowsLastExactly`.

## Model

| member | source | states |
|---|---|---|
| RunRefinement.RecoveryRefinesCleanRun | worker/src/recruit_worker/tasks/execute_run.py:72-118 | From any world in which a run waits, every mixture of crashes, exceptions, redeliveries, cancels and steps of other users that ends with the run `succeeded` or `partial` leaves its user exactly the match rows, and the run the status, of one uninterrupted execution, for a deterministic scrape and per-job score and no other saving run of that user |
| RunRefinement.RecoveredRows | packages/engine/src/recruit_engine/engine.py:80-111 | Those rows hash by hash: the row the user had before if there was one; else a row of the run that shows, field by field, the first scraped posting with that hash, if its score meets the threshold or its company is watched; else none |
| RunRefinement.SaveReachesGoal | worker/src/recruit_worker/persistence.py:62-91 | Saving is idempotent across attempts: hunting again once the first save is in inserts nothing, so an attempt that starts from the saved rows ends in them |
| RunRefinement.RunRecovers | worker/src/recruit_worker/tasks/execute_run.py:72-118 | In every reachable state of such a history the user's rows are those of the start or those of the clean execution, never a mixture, and a successful run has the latter and the matching per-source rows |
| RunRefinement.CleanRunSucceeds | worker/src/recruit_worker/tasks/execute_run.py:72-118 | The uninterrupted execution it is compared with does end well, from every waiting run |
| RunRefinement.SaveInsertsMatched | worker/src/recruit_worker/persistence.py:62-95 | A save inserts as many rows as the run matched if and only if the user has come to none of those postings since the index was loaded; with an index still current it inserts all; `inserted` is the growth of the table |
| RunRefinement.SteadySavesInsertAll | worker/src/recruit_worker/persistence.py:62-95 | Over whole histories: while no other run of the user saves, every save of the run inserts exactly the rows it matched, whatever attempts came before |
| RunRefinement.HuntDistinct | packages/engine/src/recruit_engine/engine.py:80-111 | The matches of one hunt carry pairwise different hashes, so one save never conflicts with itself |
| RunInvariants.NotificationAccounting | worker/src/recruit_worker/persistence.py:130-171 | In every reachable world, any interleaving, crash or cancel: at most one notification row for a run, present exactly when `notified_at` is set; mails sent are that one, plus one for each execution that ended between sending and its last commit, plus the one now in flight |
| RunInvariants.AlwaysAccounted | worker/src/recruit_worker/tasks/execute_run.py:108-118 | The invariant behind it: an execution about to send or having sent runs on an unnotified row, and the requeues so far plus an execution in flight never exceed `attempt` |
| RunInvariants.LifecycleAndReport | worker/src/recruit_worker/persistence.py:136-156 | In a history without a cancel of this run in flight and without an exception before the terminal check while it is terminal, whatever happens to other runs: `finished_at` is set exactly if the run is terminal, and a notified run succeeded fully or partly, its last mail reporting exactly all rows it owns, rows of earlier failed attempts included |
| RunInvariants.AlwaysOrderly | worker/src/recruit_worker/tasks/execute_run.py:72-118 | The lifecycle invariant of a run, in every history that is calm for it |
| RunInvariants.TerminalAbsorbing | worker/src/recruit_worker/tasks/execute_run.py:80-82 | Once terminal, nothing about a run (row, rows owned, mails, notes, retries) changes under any further redeliveries that are calm for it and any steps of other runs |
| RunInvariants.TerminalLeftExactly | worker/src/recruit_worker/tasks/execute_run.py:53-118 | In every reachable world, cancels in flight included, one step changes the status of a terminal run if and only if it is of that run and either an execution is in flight and raises or makes its last commit, or none is and an exception is raised before the terminal check, unless the handler would write `failed` over `failed` |
| RunInvariants.TerminalKeptExactly | worker/src/recruit_worker/tasks/execute_run.py:53-118 | Over whole histories: from any reachable world a terminal status outlives a sequence of steps if and only if none of them is such a step when it is taken |
| RunInvariants.CancelKeptExactly | backend/src/recruit_api/services/run_service.py:124-131 | A cancel of a waiting or running run by its owner takes effect, and lasts if and only if what follows holds no last commit or exception of the execution then in flight and no exception before the terminal check |
| RunInvariants.EarlyRaiseRequeuesFinished | worker/src/recruit_worker/tasks/execute_run.py:53-64 | That the exception matters: a reachable succeeded run is put back to `queued`, with `finished_at` still set, by a transient exception on redelivery |
| RunInvariants.BoundedRetries | worker/src/recruit_worker/tasks/execute_run.py:59-64 | Executions that passed the first commit are requeued by the handler at most `max_attempts - 1` times, in every history |
| RunInvariants.EarlyRetriesUnbounded | worker/src/recruit_worker/tasks/execute_run.py:53-64 | The bound ends there: a transient failure before the first commit leaves `attempt` as it is, and a run with one attempt is requeued any number of times |
| RunInvariants.GrowthIsInserted | worker/src/recruit_worker/persistence.py:62-95 | In every interleaving the match table, one row for each (user, hash), has grown by exactly the sum of the `inserted` counts, which add up the inserts that met no row |
| RunInvariants.StepFrame | worker/src/recruit_worker/tasks/execute_run.py:72-118 | A step of one run changes nothing that concerns another: its row, execution, mails, notes, owned rows, last report |
| RunReports.AlwaysStamped | worker/src/recruit_worker/tasks/execute_run.py:59-68 | In every reachable world, cancels in flight and early exceptions included, a terminal run has its `finished_at` |
| RunReports.FinishedAtLeftExactly | worker/src/recruit_worker/tasks/execute_run.py:53-68 | Where `finished_at` agrees with the status in a reachable world, one step breaks that if and only if the failure handler requeues the run while it is terminal: cancelled in flight, or raising before its terminal check |
| RunReports.FinishedAtKeptExactly | worker/src/recruit_worker/tasks/execute_run.py:53-68 | Over whole histories the two go on agreeing if and only if that never happens |
| RunReports.ReportCovers | worker/src/recruit_worker/persistence.py:136-156 | Cancels in flight included: unless an early exception has requeued a run that had notified its user, a notified run has no execution in flight, is terminal, and its last mail reports exactly the rows with its run id, as they stand |
| RunReports.ReportStored | worker/src/recruit_worker/persistence.py:146-148 | In every reachable world a report key leads to a stored report, and that of a run that has notified its user is what its last mail reported |
| RunReports.AlwaysBooked | worker/src/recruit_worker/tasks/execute_run.py:59-118 | In every reachable world: a run has a start exactly if it was attempted; a failed one has its error, a successful one has none and has its `stats`; past its save an execution runs on a row with the counts of its result |
| RunReports.StartKept | worker/src/recruit_worker/tasks/execute_run.py:84-90 | Over whole histories `started_at` is the time of the first attempt that began, whatever retries, cancels and requeues follow |
| RunReports.ReportLeftExactly | worker/src/recruit_worker/persistence.py:133-134 | Where the last mail of a notified run covers its rows in a reachable world, one step breaks that if and only if it saves a result of the run of which an insert takes effect |
| RunReports.ReportKeptExactly | worker/src/recruit_worker/persistence.py:133-134 | Over whole histories a report goes on covering its run if and only if no later save of the run adds a row |
| RunReports.RedeliveryIsUnnoticed | worker/src/recruit_worker/persistence.py:133-134 | An execution of a run that notified before saves whatever it finds, ends well and sends no mail |
| RunReports.UntoldRowReachable | worker/src/recruit_worker/tasks/execute_run.py:53-64 | A reachable run that succeeded and told its user, was requeued by a transient exception on redelivery, and then saved a row that no mail reports |
| RunRows.EveryRowExplained | worker/src/recruit_worker/persistence.py:62-91 | In every reachable world, for any interleaving, crashes, retries and LLM replies: every match row belongs to the user and profile of its run and shows, field by field, the first posting with its hash that an attempt of the run scraped, evaluated by the reply for one of the résumés at the posting's place in its batch, or by that résumé's keywords; the posting was kept for its score or its company |
| RunRows.EveryRowEarned | packages/engine/src/recruit_engine/engine.py:107-111 | In short: company, title, place, link and text of a row are those of the first scraped posting with its hash, cut to the column widths, and its percentage reaches the threshold or the untruncated company stands on the watchlist in whatever case |
| RunRows.StepBacks | worker/src/recruit_worker/persistence.py:62-91 | Every step keeps this: rows are only added by saves, from results that the engine computed |
| RunMails.SecondMail | worker/src/recruit_worker/persistence.py:157-170 | From every world in which a run is about to tell its user, whatever its executions find: a death between mail and last commit, then a delivery, costs two mails about the run and leaves one notification row |
| RunMails.TwoMailsReachable | worker/src/recruit_worker/tasks/execute_run.py:111-118 | A reachable world with two mails, one notification row and one lost record for one run |
| RunStream.AttemptIsOneAttempt | backend/src/recruit_api/services/run_service.py:137-152 | Watching a run while no attempt starts, whatever it and all others do between and during the polls, the polls only ever see rows added |
| RunStream.WatchedEndToEnd | backend/src/recruit_api/services/run_service.py:133-159 | Hence the page of a run watched during one attempt shows every row the last poll read, and the status exactly when a poll saw it terminal |
| RunStream.RetryLosesRows | worker/src/recruit_worker/persistence.py:30-31 | A reachable run retried while it is watched: the stream shows the row of its first attempt and never the one it ends with, because positions are counted across the clearing of the rows |
| RunSteps.InsertAllGrows | worker/src/recruit_worker/persistence.py:62-91 | Inserting only adds rows, of this user, run and profile, for exactly the hashes of the matches, each showing a match with its hash field by field, and leaves every existing row as it was |
| RunSteps.GrowthIsCounted | worker/src/recruit_worker/persistence.py:61-91 | The table grows by one row for each insert that met no row: counting row counts, as the loop does, is counting growth |
| RunSteps.InsertedEqualsMatched | worker/src/recruit_worker/persistence.py:62-95 | With pairwise different hashes, as many rows are inserted as there are matches if and only if the user had none of them |
| RunSteps.InsertedRow | worker/src/recruit_worker/persistence.py:62-89 | For each match the row found afterwards is the one that was there, else a row of the run that shows it: company, title, source, place, link and text of the posting, percentage, both skill lists, reason, urgency, action and résumé, each cut to its column |
| RunSteps.QuietStep | worker/src/recruit_worker/persistence.py:41-107 | No step but a save touches match rows or per-source rows |
| RunSteps.StepOther | worker/src/recruit_worker/tasks/execute_run.py:47-69 | A step of one run leaves the rows and executions of the others alone |
| RunWorker.Worker.ExecuteRun | worker/src/recruit_worker/tasks/execute_run.py:47-69 | The worker's code, commit by commit: one delivery with any plan of faults takes the world exactly to the state that the plan determines, by atomic steps of this run only, with the engine computing what its input determines, and leaves no execution in flight |
| RunWorker.Worker.Redeliver | worker/src/recruit_worker/tasks/execute_run.py:47-69 | Any number of deliveries with any faults: if the run ends well its user's committed rows and its status are those of the clean execution; if the last delivery meets no fault the run is terminal |
| RunWorker.FaultFreeFinishes | worker/src/recruit_worker/tasks/execute_run.py:72-118 | A delivery without faults finishes a waiting run: status by the failed sources, all matches inserted, one mail about all rows of the run with its notification record, unless there are no rows, the user is gone or was told before |
| RunWorker.PartialExactly | worker/src/recruit_worker/tasks/execute_run.py:111-114 | A finished run is `partial` exactly if asking some source it was open to raised, or that source's progress callback did |
| RunWorker.FaultFreeEnds | worker/src/recruit_worker/tasks/execute_run.py:80-118 | After a delivery without faults a run is terminal, whatever state it was in |
| RunWorker.Worker.RunOnce | worker/src/recruit_worker/tasks/execute_run.py:72-119 | State and way of ending for every plan of faults; when the engine is reached its result answers the input and the hashes the user had at the start |
| RunWorker.Worker.Start | worker/src/recruit_worker/tasks/execute_run.py:75-90 | First commit: missing or terminal runs are left alone, others become `running` with one more attempt and no progress rows, or nothing at all if the commit is not reached |
| RunWorker.Worker.Search | worker/src/recruit_worker/tasks/execute_run.py:92-106 | From the loaded index through the committed progress rows to the engine's result, for every fault in between |
| RunWorker.Worker.Hunting | worker/src/recruit_worker/tasks/execute_run.py:99-106 | The result follows the known hashes loaded at the start: matches, counts, per-source outcome, tally, degradation |
| RunWorker.Worker.LoadKnown | worker/src/recruit_worker/adapters/seen_store_pg.py:21-28 | The index handed to the engine holds exactly the hashes of the user's committed rows |
| RunWorker.Worker.Report | worker/src/recruit_worker/tasks/execute_run.py:95-97 | Progress rows are committed one by one, in order, and change nothing else |
| RunWorker.Worker.Persist | worker/src/recruit_worker/tasks/execute_run.py:108-109 | The second commit stores the whole result or, on a fault, none of it |
| RunWorker.Worker.SaveResult | worker/src/recruit_worker/persistence.py:41-107 | The session ends in the saved tables, and the returned count of effective inserts is the growth of the match table |
| RunWorker.SavedShows | worker/src/recruit_worker/persistence.py:62-91 | In those tables old rows stand, every match has a row, and every new row is one of the user and run that shows the match with its hash |
| RunWorker.Worker.InsertMatches | worker/src/recruit_worker/persistence.py:61-91 | The loop of insert-or-ignore adds exactly the missing rows, each showing its match field by field, and counts the inserts that took effect |
| RunWorker.Worker.UpsertAll | worker/src/recruit_worker/persistence.py:42-60 | The loop over the sources, in whatever order, sets each source's row of this run and no other row |
| RunWorker.Worker.NotifyIfNeeded | worker/src/recruit_worker/persistence.py:130-171 | Nothing if notified before or without rows; else upload, then mail, then the record in the session, stopping at the fault met; the database is not touched |
| RunWorker.Worker.UploadReport | worker/src/recruit_worker/persistence.py:145-148 | The report covers exactly the rows of the run in the database, and the key is only in the session |
| RunWorker.Worker.SendReport | worker/src/recruit_worker/persistence.py:150-170 | One mail with those rows if the user still exists; its record waits for the last commit |
| RunWorker.Worker.Finish | worker/src/recruit_worker/tasks/execute_run.py:111-118 | Last commit: status `partial` if a source failed, else `succeeded`, `finished_at`, and the pending record, all or nothing |
| RunWorker.Worker.Handle | worker/src/recruit_worker/tasks/execute_run.py:53-69 | The failure handler in its own session requeues a transient failure with attempts left, fails any other, or dies before its commit; the execution is over in each case |
| RunWorker.Worker.Mark | worker/src/recruit_worker/tasks/execute_run.py:56-68 | The committed row is what the retry decision says, from the committed `attempt` |
| RunWorker.PerJobScoringFits | packages/engine/src/recruit_engine/engine.py:29-126 | The engine is such a deterministic hunt, for every index it may start from, whenever the reply to a batch scores each of its postings on its own merits |
| RunWorker.EveryScorerFits | packages/engine/src/recruit_engine/engine.py:95-105 | That covers every scorer: whatever percentages a score gives to résumé and posting there are replies with which the engine is its hunt, and postings that the score tells apart the hunt tells apart |
| Engine.ScrapeAccounting | packages/engine/src/recruit_engine/engine.py:45-78 | With distinct source names, `scraped` is the sum of the per-source counts plus the postings kept from sources whose progress callback raised; equal exactly when there are none |
| Engine.NewJobsMembers | packages/engine/src/recruit_engine/engine.py:80-90 | The new jobs are exactly the first occurrences of the unknown hashes, each once |
| Engine.FirstWithIndex | packages/engine/src/recruit_engine/engine.py:86-89 | First occurrence in the usual sense: no earlier posting carries the hash |
| Engine.SecondRunFindsNothing | worker/src/recruit_worker/adapters/seen_store_pg.py:7-9 | Running again once the first matches are known matches nothing |
| Engine.MatchedByMembers | packages/engine/src/recruit_engine/engine.py:80-111 | What is matched, element by element: unknown, first of its hash, kept |
| Engine.EngineMatchesByJob | packages/engine/src/recruit_engine/engine.py:95-111 | When replies score each posting on its own merits the matches are a filter over the new jobs one by one, whatever was known |
| Engine.RunEngine | packages/engine/src/recruit_engine/engine.py:29-126 | The whole run: counts, per-source map, matches kept by threshold or watchlist, tally and degradation, tied to the input and the known hashes |
| Engine.Scrape | packages/engine/src/recruit_engine/engine.py:45-78 | The scraping loop: all postings in source order and the last outcome booked for each name |
| Engine.ScrapeOne | packages/engine/src/recruit_engine/engine.py:47-76 | One source: unknown, not opted in, raised, or fetched and hashed, with the callback failure booked over the success |
| Engine.ScrapedAt | packages/engine/src/recruit_engine/engine.py:65-70 | What a source adds to the scrape, posting by posting and in order, each with its own hash or else its fingerprint; nothing from a source that is unknown, not opted in or raised |
| Engine.AnyFailedExactly | packages/engine/src/recruit_engine/engine.py:47-76 | Some source is reported failed exactly if asking an open source raised or its progress callback did |
| Engine.KeptExactly | packages/engine/src/recruit_engine/engine.py:107-111 | Kept is exactly what scores at the threshold or above, or whose company equals a watchlist entry in whatever case |
| Engine.MatchExplained | packages/engine/src/recruit_engine/engine.py:86-111 | Every match is the first scraped posting with its hash, the hash was unknown, it carries the reply for one of the résumés at its place in its batch or that résumé's keyword score, and it is good enough or watched |
| Engine.Dedupe | packages/engine/src/recruit_engine/engine.py:80-90 | The loop with `seen_now` computes exactly the new jobs |
| Engine.KeepGood | packages/engine/src/recruit_engine/engine.py:107-111 | The threshold-or-watchlist loop keeps exactly the good matches, in order |
| Engine.PgSeenStore.MarkSeen | worker/src/recruit_worker/adapters/seen_store_pg.py:30-34 | After marking, `filter_new` answers every question as before, less exactly the marked hashes |
| Matching.BatchMatch | packages/engine/src/recruit_engine/matching.py:114-154 | For every batch size from 1 and any replies, the chunked dictionary loop gives one entry for each job, in order, equal to the simple per-job argmax; each skill is tallied as often as the winning replies name it missing; degraded exactly if there is an entry and all are keyword scores |
| Matching.BestMatchesMeaning | packages/engine/src/recruit_engine/matching.py:101-147 | The entry of job i carries percentage, skills, reason, upper-cased urgency and action of the entry at offset i mod size of some résumé's reply to the batch at i / size * size, and that résumé's id, or its keyword score if the reply has no percentage there; no résumé gives the job more, and no earlier one as much |
| Matching.TallyFromReplies | packages/engine/src/recruit_engine/matching.py:148-151 | The tally over the replies: how often each skill stands in the missing lists of the winning replies; with one résumé those are its replies to all jobs |
| Matching.CandidateEvaluates | packages/engine/src/recruit_engine/matching.py:101-111 | What a résumé makes of a job is determined by its reply: the entry's values with the defaults for missing and null ones |
| Matching.BestIsFirstMaximum | packages/engine/src/recruit_engine/matching.py:144-145 | The strict comparison keeps the earliest of equals |
| Matching.SizeIndependent | packages/engine/src/recruit_engine/matching.py:134-147 | With position-independent scoring each entry is the best of the résumés for its own posting alone |
| Matching.BatchSizeIrrelevant | packages/engine/src/recruit_engine/matching.py:119-147 | When replies score each posting on its own merits, any two batch sizes give the same result |
| Matching.AnsweringIsPerPosting | packages/engine/src/recruit_engine/matching.py:92-98 | Such replies exist for every scorer that always gives a percentage |
| Matching.MergeAll | packages/engine/src/recruit_engine/matching.py:134-145 | Merging all gathered batches leaves exactly the best match of each job in the dictionary |
| Matching.MergeBatch | packages/engine/src/recruit_engine/matching.py:140-145 | Merging one batch turns the best over the batches before it into the best including it |
| Matching.BuildTasks | packages/engine/src/recruit_engine/matching.py:134-136 | The batches in gathering order: résumé by résumé, in steps of the batch size from the first job to the last |
| Matching.ScoreBatch | packages/engine/src/recruit_engine/matching.py:83-98 | Every offset of the batch gets its reply, or the keyword score when the entry or its percentage is missing |
| Matching.DecimalInverse | packages/engine/src/recruit_engine/matching.py:93 | Different offsets have different dictionary keys |
| Matching.AllCallsFailed | packages/engine/src/recruit_engine/matching.py:89-98 | If every LLM call fails: degraded, an empty tally and every percentage in 0..100 |
| Matching.FallbackRange | packages/engine/src/recruit_engine/ai.py:65-79 | The fallback percentage is the share of the résumé's skills that were found, rounded down: in 0..100, 100 exactly when every skill of a non-empty résumé was found and 0 exactly when fewer than one percent were |
| Matching.KeywordHitsMeaning | packages/engine/src/recruit_engine/ai.py:67-69 | A skill is a hit exactly if it is one of the résumé's, in lower case, and stands somewhere in the lower-cased description and title |
| Matching.Tally | packages/engine/src/recruit_engine/matching.py:148-151 | Each skill is counted as often as it occurs as missing over the best matches, no other skill is listed, and the totals agree |
| Matching.TotalBump | packages/engine/src/recruit_engine/matching.py:151 | Counting one occurrence adds one to the total, whether or not the skill was listed |
| TokenBucket.WindowBound | worker/src/recruit_worker/adapters/rate_limiter_redis.py:18-40 | In every run from an empty store with non-decreasing timestamps, any keys and any expiries: the grants between two calls are at most burst + rate × elapsed, for each tenant's bucket and for the site-wide bucket over all tenants |
| TokenBucket.SiteBoundExactly | worker/src/recruit_worker/adapters/rate_limiter_redis.py:18-40 | For the site-wide bucket the condition is exact: with tenants that may call at all, the bound holds in every window of every legal run if and only if 300 s of refill cover the site-wide burst |
| TokenBucket.TwoCrowds | worker/src/recruit_worker/adapters/rate_limiter_redis.py:37-38 | The run that shows it: a burst of distinct tenants, the expiry of the site-wide bucket, another burst of distinct tenants |
| TokenBucket.ExpiryUnobservable | worker/src/recruit_worker/adapters/rate_limiter_redis.py:23-25 | With that condition a run answers every call exactly as if no key had ever expired |
| TokenBucket.TableRefillsWithinTtl | worker/src/recruit_worker/policies.py:22-36 | Every entry of the policy table, and the default, meets the condition for both buckets |
| TokenBucket.WaitHintExact | worker/src/recruit_worker/adapters/rate_limiter_redis.py:42-46 | After a denial with hint w and no grant in between, the same call is granted at now + d if and only if d >= w and neither burst is zero; w is positive |
| TokenBucket.CallEffect | worker/src/recruit_worker/adapters/rate_limiter_redis.py:34-46 | A grant takes one token from both buckets of the call and nothing from any other; a denial changes nothing; granted if and only if both hold a token |
| TokenBucket.AcquireBounded | worker/src/recruit_worker/adapters/rate_limiter_redis.py:73-88 | The loop ends: at most one call for each millisecond of patience and one more, sleep within the patience plus the politeness delay, and no token only once the naps asked for exceed the patience |
| TokenBucket.UndisturbedAcquire | worker/src/recruit_worker/adapters/rate_limiter_redis.py:73-88 | An acquire that nobody disturbs, on a clock that advances by its naps, and whose first call is told to wait w: it gets its token if and only if w is within its patience, having slept exactly w and the politeness delay in ceil(w / cap) + 1 calls; otherwise it gives up after the whole naps that fit |
| TokenBucket.UndisturbedExists | worker/src/recruit_worker/adapters/rate_limiter_redis.py:73-88 | Such acquires exist for every client and store whose first call is denied |
| TokenBucket.HintCountsDown | worker/src/recruit_worker/adapters/rate_limiter_redis.py:42-46 | As the naps pass the hint counts down by them, and at its end the call is granted |
| TokenBucket.MinuteBound | worker/src/recruit_worker/policies.py:1-6 | With the policy table: within any minute of any run one tenant is granted at most `burst + rpm` calls of a site, and all tenants together at most `global_burst + global_rpm` |
| TokenBucket.AcquireIsItsTrace | worker/src/recruit_worker/adapters/rate_limiter_redis.py:74-88 | The store an acquire leaves is that of the run made of the others' events and its own calls; of these all but the last are denied and leave the store as they met it, and the last is granted exactly if the acquire is |
| TokenBucket.AcquireTakesOneOrNone | worker/src/recruit_worker/adapters/rate_limiter_redis.py:65-88 | Over that run its own calls take from the levels exactly one token of the tenant's and one of the site's bucket if it is granted, none if it is not, and nothing from any other bucket |
| TokenBucket.RedisTokenBucket.Acquire | worker/src/recruit_worker/adapters/rate_limiter_redis.py:65-88 | The loop itself, with other clients and expiries acting before each call, ends in that outcome, store included; undisturbed it sleeps exactly what the first hint said |
| TokenBucket.RedisTokenBucket.Turn | worker/src/recruit_worker/adapters/rate_limiter_redis.py:75-88 | One turn ends the acquire or brings it strictly closer to the end of its patience, without changing its outcome |
| TokenBucket.RedisTokenBucket.Attempt | worker/src/recruit_worker/adapters/rate_limiter_redis.py:75-78 | One script call on the buckets named by the key, after arbitrary interference |
| TokenBucket.Redis.Eval | worker/src/recruit_worker/adapters/rate_limiter_redis.py:28-46 | The script overwrites the two buckets, or nothing, and answers as the atomic step used in all the theorems |
| TokenBucket.Redis.ReadLevel | worker/src/recruit_worker/adapters/rate_limiter_redis.py:19-26 | Lazy refill: a missing bucket reads as full, time going back refills nothing, and the level is capped |
| TokenBucket.GrantBudget | worker/src/recruit_worker/adapters/rate_limiter_redis.py:18-40 | Grants plus what is left never exceed what was there plus the refill |
| TokenBucket.ExpiryKeepsLevel | worker/src/recruit_worker/adapters/rate_limiter_redis.py:23-25 | Dropping a bucket 300000 ms or more after its last grant leaves its level as it was |
| TokenBucket.RenderInjective | worker/src/recruit_worker/adapters/rate_limiter_redis.py:70-71 | Buckets of different tenants or sites, and the site-wide one, never share a Redis key, for keys with a colon and no brace in the site |
| TenantBound.TenantBoundExactly | worker/src/recruit_worker/adapters/rate_limiter_redis.py:18-40 | For a tenant's bucket: the bound holds in every window of every legal run if and only if 300 s of its refill cover its burst, or the site-wide burst is zero, or the site refills no faster than the tenant and 300 s of the tenant's refill cover the site-wide burst |
| TenantBound.TenantBoundAtLargeSite | worker/src/recruit_worker/adapters/rate_limiter_redis.py:18-40 | In particular, where the site-wide burst is at least the tenant's, if and only if 300 s of its refill cover its burst |
| TenantBound.SlowSiteBounds | worker/src/recruit_worker/adapters/rate_limiter_redis.py:34-40 | Because every grant draws on both buckets, a site that refills no faster than its tenant, with a burst within 300 s at that rate, keeps the bound of a tenant of any burst |
| TenantBound.ModestSiteIsFast | worker/src/recruit_worker/policies.py:22-36 | The one case the exact condition leaves out, where the rounding of the millisecond clock decides, needs a site rate above 245 a minute |
| TenantBound.RoundsExceed | worker/src/recruit_worker/adapters/rate_limiter_redis.py:37-38 | If calls on fresh buckets earn more tokens than their time and a TTL refill, enough such rounds, with both keys expiring between them, exceed every window bound |
| RefreshClient.NeverPresentsRotated | frontend/src/lib/api.ts:43-69 | One tab, opened or reloaded with or without a cookie, every rotating answer delivered: whatever callers run into a 401 and whatever logins, logouts and credential changes overlap, a refresh never presents an already-rotated token |
| RefreshClient.ReuseExactly | backend/src/recruit_api/services/auth_service.py:114-117 | For one tab whose rotating answers are delivered, exactly: a refresh is answered with the reuse branch if and only if its token was dead when the history began, or a logout or an accepted credential change of its user ended it since |
| RefreshClient.DeadExactly | backend/src/recruit_api/services/auth_service.py:108-138 | For any number of tabs: a token that was not rotated is dead exactly if it was at the start or a logout with it or an accepted credential change ended it on the way |
| RefreshClient.CredentialChangeReuse | backend/src/recruit_api/services/account_service.py:53-58 | A reachable history of one tab: a password change elsewhere between two refreshes sends the next refresh into the reuse branch |
| RefreshClient.ReuseUnreachable | frontend/src/lib/api.ts:48-69 | Hence never, if the tab's logouts do not overlap its refreshes and no request from elsewhere is granted that logs it out or changes the credentials of the user of its tokens: nothing ends the token presented |
| RefreshClient.RunInv | frontend/src/lib/api.ts:48-69 | The invariant over all interleavings: the cookie is presentable or about to be replaced by its successor, and tokens under way are presentable and all different |
| RefreshClient.RunLive | frontend/src/lib/api.ts:48-69 | Peaceful histories keep every token that may still be presented unrevoked |
| RefreshClient.TwoTabsReuse | frontend/src/lib/api.ts:43-47 | Why one tab: with two tabs on one jar a reachable refresh hits the reuse branch |
| RefreshClient.LostResponseReuse | frontend/src/lib/api.ts:52-66 | Why delivery: after any history in which a rotating answer is lost the jar keeps the spent token, and the next refresh presents it and is refused for reuse |
| RefreshClient.LostResponseReachable | frontend/src/lib/api.ts:52-66 | Such a history of one tab, from an empty jar |
| RefreshClient.ApiClient.RefreshAccessToken | frontend/src/lib/api.ts:48-69 | One step of the composed system: at most one refresh is ever under way, it starts with a token that was not rotated, a shared call changes nothing, and a reused access token is younger than three seconds |
| RefreshClient.ApiClient.OnRefreshed | frontend/src/lib/api.ts:60-66 | The jar holds the new token, not rotated, no refresh is under way, and no caller of the next three seconds starts one |
| RefreshClient.ApiClient.OnRefused | frontend/src/lib/api.ts:53-57 | Until the stale cookie is dropped every caller shares this refresh; none reuses the old access token and none starts another |
| RefreshClient.ApiClient.OnCleanedUp | frontend/src/lib/api.ts:57-66 | However the attempt ends short of a new token, logout delivered or lost or answer lost, the invariant is kept and the slot is free; only a delivered logout drops the cookie |
| RefreshClient.HandleKeepsPresentable | backend/src/recruit_api/services/auth_service.py:108-129 | No request but a refresh presenting it can rotate a token |
| AuthTokens.HistoryChained | backend/src/recruit_api/services/auth_service.py:108-138 | In every history of requests a token has at most one successor, a token with a successor is revoked, links stay within one user, and a revoked token never becomes active again |
| AuthTokens.OneActivePerLogin | backend/src/recruit_api/services/auth_service.py:125-128 | Two active tokens of the same login chain are the same token |
| AuthTokens.ChainLinear | backend/src/recruit_api/services/auth_service.py:125-128 | Chains do not branch: of two tokens of one login, one descends from the other |
| AuthTokens.RefreshContinuesLogin | backend/src/recruit_api/services/auth_service.py:108-129 | A refresh that succeeds leaves exactly one live token in its login: the new one, of the same user, successor of the one presented |
| AuthTokens.SessionAccounting | backend/src/recruit_api/services/auth_service.py:33-39 | A login adds one live session to its user, a logout with a live cookie takes one away, a credential change leaves none, and nothing else, a refresh included, changes any user's count |
| AuthTokens.CredentialChangeEndsSessions | backend/src/recruit_api/services/auth_service.py:161-172 | A reset, password change or confirmed email change leaves its user without a live token and all other users' tokens as they were |
| AuthTokens.ReuseIsRolledBack | backend/src/recruit_api/db.py:33-41 | Presenting a revoked token revokes every session of the user on the session, and the request wrapper then undoes it: nothing of it is stored |
| AuthTokens.UsedOnce | backend/src/recruit_api/services/auth_service.py:161-172 | A reset token takes effect at most once, whatever happens in between |
| AuthTokens.ConfirmedOnce | backend/src/recruit_api/services/account_service.py:91-109 | Nor does an email-change token take effect twice |
| AuthTokens.PasswordTakesEffect | backend/src/recruit_api/services/auth_service.py:95-102 | After an accepted reset or password change exactly the new password logs its user in, unless suspended |
| AuthTokens.EndsExactly | backend/src/recruit_api/services/auth_service.py:33-39 | A live token ends by a logout with it, an accepted credential change of its user, or a successful refresh that presents it, and in no other way |
| AuthTokens.AcceptedExactly | backend/src/recruit_api/services/auth_service.py:95-174 | When each of the eight requests is accepted, exactly, and that a refused one changes nothing |
| AuthTokens.RefreshExactly | backend/src/recruit_api/services/auth_service.py:108-124 | A refresh is answered with a new token if and only if its token was issued, has not ended, has not expired, and its user exists and is not suspended; each refusal says which |
| AuthTokens.RefreshLifetime | backend/src/recruit_api/services/auth_service.py:118-119 | A session token lives for thirty days: whatever is requested in between, it is never exchanged from then on, and before that exactly if it has not ended and its user is welcome |
| AuthTokens.ResetLifetime | backend/src/recruit_api/services/auth_service.py:142-172 | A reset token lives for an hour: whatever is requested in between, it sets the password of the user it was asked for if and only if it comes within the hour and was not used |
| AuthTokens.EmailTakesEffect | backend/src/recruit_api/services/account_service.py:62-109 | A confirmation token lives for two hours: it is accepted if and only if it comes within them, was not used and nobody else has come to the address; then the address becomes the user's and finds that user |
| AuthTokens.WritesExactly | backend/src/recruit_api/services/auth_service.py:142-172 | What each request writes to users and one-time tokens, and that it writes nothing else there |
| AuthTokens.AuthService.Answer | backend/src/recruit_api/db.py:33-41 | A whole request, committed if the service returns and rolled back if it raises, is one step of the histories above: accepted exactly when it should be, chains are kept, every user's count of sessions is as accounted, and a rejected request stores nothing |
| AuthTokens.AuthService.DoFinishReset | backend/src/recruit_api/services/auth_service.py:161-172 | Accepted exactly with a fresh token of an existing user |
| AuthTokens.AuthService.DoConfirmEmailChange | backend/src/recruit_api/services/account_service.py:91-109 | Accepted only with a fresh token, and the user then has the new address |
| AuthTokens.AuthService.RevokeAllRefreshTokens | backend/src/recruit_api/services/auth_service.py:33-39 | Exactly the live tokens of the user are revoked |
| AuthTokens.AuthService.DoRefresh | backend/src/recruit_api/services/auth_service.py:108-129 | On the session: issued exactly for a live, unexpired token of a user who is not suspended; a rotation keeps the chains and leaves the successor of the presented token as the one live token of its login, a reuse leaves its user no session, any other refusal changes nothing |
| AuthTokens.AuthService.DoLogin | backend/src/recruit_api/services/auth_service.py:95-106 | A login starts a chain of its own with a live token for a user of that address and leaves all earlier tokens as they were; a refusal changes nothing |
| AuthTokens.AuthService.DoLogout | backend/src/recruit_api/services/auth_service.py:131-138 | Afterwards the cookie's token is not live, every other token is as it was, and the counts of sessions are as accounted |
| RunCreation.CreationSafe | backend/src/recruit_api/models/run.py:53 | For any number of API creates and scheduler ticks, interleaved step by step and dying anywhere: one run for each idempotency key, every message names a committed run, and no run is queued twice |
| RunCreation.OneScheduledRunADay | worker/src/recruit_worker/scheduler.py:61 | Hence at most one scheduled run for a profile and local date |
| RunCreation.EveryTickServes | worker/src/recruit_worker/scheduler.py:61-83 | And at least one: under every interleaving, a tick that comes to release the lock of a due profile leaves it with a run under its profile and local date, its own or one that was there |
| RunCreation.ExactlyOneRun | worker/src/recruit_worker/scheduler.py:61-83 | A due profile that had no run for its local date and whose lock was free gets exactly one, with its user, its profile and that date |
| RunCreation.TwoDaysTwoRuns | worker/src/recruit_worker/scheduler.py:61-83 | Two ticks that find the lock of a profile free on different local dates leave it two runs |
| RunCreation.SchedulerInsertSucceeds | worker/src/recruit_worker/scheduler.py:62-81 | If the leases of a profile outlive its critical sections and its schedule keys are the scheduler's alone, whatever happens for other profiles, the insert after an empty check neither waits nor hits the unique constraint |
| RunCreation.StalledTickAborts | worker/src/recruit_worker/scheduler.py:62-81 | Why the lease matters: a reachable tick that stalled for 30 s before its insert hits the constraint and is aborted |
| RunCreation.ClaimIsAlone | worker/src/recruit_worker/scheduler.py:62-81 | A key that a tick has found unused is flushed by nobody else |
| RunCreation.RunInv | backend/src/recruit_api/services/run_service.py:55-76 | The invariant: flushed rows, committed rows and unsent messages stay distinct under every interleaving |
| RunCreation.Platform.Create | backend/src/recruit_api/services/run_service.py:46-77 | Not found, conflict, the existing run of the same owner, or exactly one new row and one message for it |
| RunCreation.Platform.EnqueueDueRuns | worker/src/recruit_worker/scheduler.py:40-89 | Afterwards every due profile whose lock was free has its run for its local date; the new runs are of due profiles whose lock was free and that had none, no two for one profile and date, with the profile's user, one message each, in order; held locks are untouched |
| RunCreation.Platform.ServeProfile | worker/src/recruit_worker/scheduler.py:57-87 | One profile: skipped if locked, else its run for its local date created unless already there, and unlocked in both cases |
| EventStream.RoundTrip | frontend/src/lib/sse.ts:59-77 | Any events printed by `_sse`, cut into chunks anywhere, are shown as exactly the data of the step events before the first done event, and of that event |
| EventStream.ReadStream | frontend/src/lib/sse.ts:57-78 | For arbitrary text, valid or not, the page after the reading loop depends only on the whole text, not on the chunks |
| EventStream.FramesAppend | frontend/src/lib/sse.ts:63-67 | Cutting a text anywhere and carrying the unfinished end over loses and invents no frame |
| EventStream.PrintThenParse | backend/src/recruit_api/services/run_service.py:158-159 | Splitting and parsing the printed text gives back the events, with nothing left over |
| EventStream.Drain | frontend/src/lib/sse.ts:64-76 | Taking frames out of the buffer shows each event in order and stops for good at done |
| EventStream.ParseChunk | frontend/src/lib/sse.ts:13-26 | The line loop computes the event of a frame, or none for empty data or bad JSON |
| EventStream.OneAttemptStream | backend/src/recruit_api/services/run_service.py:133-155 | Within one attempt the stream is every row read, once and in order, then the terminal status, or a timeout when the polls run out |
| EventStream.EndToEnd | backend/src/recruit_api/services/run_service.py:133-159 | Polled, printed, cut up and read: the page shows exactly the rows the server read, and the status exactly when a poll saw it terminal |
| EventStream.StreamShowsLastExactly | backend/src/recruit_api/services/run_service.py:137-155 | For any polls: the stream shows the rows of the last poll if and only if that list is at least as long as every earlier one and agrees with each on the rows it was the first to have |
| EventStream.StreamEvents | backend/src/recruit_api/services/run_service.py:137-155 | The poll loop with its position yields that stream |
| Credentials.HistoryIntact | backend/src/recruit_api/security/crypto.py:75-91 | Over any deployments that keep the keys in use, writes, verifications and deletions: the current version is a known key, every row opens to the last secret written for its user and site, and `valid` or `invalid` says exactly whether that secret passes the structural check |
| Credentials.DroppingVersions | backend/src/recruit_api/security/crypto.py:61-65 | Dropping key versions keeps every row openable if and only if no row carries a dropped one |
| Credentials.EnvMasterKey | backend/src/recruit_api/security/crypto.py:41-59 | Which settings give keys and which fail; the current version is the configured one if known, else the largest |
| Credentials.Largest | backend/src/recruit_api/security/crypto.py:58-59 | The largest of the configured versions |
| Credentials.UpsertReadsBack | backend/src/recruit_api/services/site_credential_service.py:51-70 | A write is read back as written, its old verdict is forgotten, and no other row changes |
| Credentials.VerifyTellsExactly | worker/src/recruit_worker/tasks/verify_credential.py:51-80 | A verification tells exactly whether the secret last written is well formed, and changes no other row |
| Credentials.WellFormedExactly | worker/src/recruit_worker/tasks/verify_credential.py:25-44 | What a secret must hold, site by site and kind by kind, for the verdict `valid` |
| Credentials.CredentialStore.PutCredential | backend/src/recruit_api/services/site_credential_service.py:48-77 | The stored row opens to the secret just put and is unverified, no other row changes, and an intact store stays intact |
| Credentials.CredentialStore.VerifyCredential | worker/src/recruit_worker/tasks/verify_credential.py:51-80 | In an intact store the row is marked valid exactly if the secret last written is well formed, invalid otherwise, and no other row changes |
| Credentials.CredentialStore.LoadSourceCredentials | worker/src/recruit_worker/credentials.py:32-58 | A run gets, for its user, exactly the secrets of the rows not known to be bad, each as last written, and so every well-formed one |

## Left out

- TokenBucket.Redis.Eval: requires positive rates; with a rate of zero the script divides by zero and the hint is infinite. No policy has one.
- TokenBucket.RedisTokenBucket.Acquire: requires a positive sleep cap; with a cap of zero the naps are empty and the loop need not end.
- TokenBucket.RenderInjective: keys with a brace in the site or without a colon, which no caller builds.
- TenantBound.TenantBoundExactly: leaves out a site that refills faster than the tenant, has a burst of at most 300 s of the tenant's refill, and hands out one token a rounded-up number of milliseconds no faster than the tenant refills it. That takes a site rate above 245 a minute (`ModestSiteIsFast`); the table's are at most 120.
- Matching.BatchMatch: requires a batch size of at least 1; Python raises for 0 and scores nothing below it. Ill-typed fields of a reply (a percentage that is text, a list of skills that is text) are not modelled, missing and null ones are.
- Engine.RunEngine: requires a batch size of at least 1, as the matching does.
- RunWorker.Worker.ExecuteRun: requires a batch size of at least 1 and no other execution of the run in flight; other runs act only between deliveries here, and anywhere in the step system.
- RunWorker.Worker.Redeliver: the same, and an engine that is a deterministic hunt, which `PerJobScoringFits` derives from replies that score each posting on its own merits. Nothing is claimed of an LLM whose score for a posting depends on the batch around it.
- RunInvariants.LifecycleAndReport: for histories calm for the run. Of the excluded ones `FinishedAtKeptExactly`, `ReportCovers`, `ReportKeptExactly` and `TerminalKeptExactly` say exactly what remains: the report is not affected by cancels in flight.
- RunRefinement.RecoveryRefinesCleanRun: match rows and status only. `stats` are overwritten by each attempt and do not converge; executions of one run are serial, as the queue delivers them.
- RefreshClient.ReuseUnreachable: a sufficient condition; the exact one is `ReuseExactly`. Several tabs and lost rotating answers are `TwoTabsReuse` and `LostResponseReuse`. A request that is lost on its way and served later is not modelled.
- RunCreation.CreationSafe: safety only. A creator that dies between commit and enqueue leaves a queued run without a message.
- RunCreation.Platform.Create: runs undisturbed in the method; interleavings are in the step system, whose steps it takes. The random key of a request without one is a parameter.
- EventStream.OneAttemptStream: nothing is claimed about rows that land between the last read and the status; across a retry see `StreamShowsLastExactly`. The delay between polls and the disconnecting browser are left out.
- Matching.FallbackRange: the order in which Python iterates the set of skills is fixed as first occurrence; it decides only which ten hits are listed.
- Floating point: bucket levels, rates and percentages are exact.
- Case folding is that of ASCII letters.
- Columns that nothing above depends on: latency and error text of sources, salary and posting date, details and times of progress rows, worker id, user agent and address of a token, credential labels and verification text, `stats` beyond its four counts.
- The order of rows in a report (by percentage), the workbook, the mail's text and the dashboard: rows are a map.
- The concurrency of `gather`: results are merged in the order it returns them, with arbitrary replies.
- Clocks: one delivery reads the time once; a refresh is timed at its delivery.
- Signup, email verification, account deletion, access tokens and their lifetime: a suspended or missing user is modelled, how it came about is not.
- `croniter`, time zones and which profiles are active: the due profiles and their local dates are given.
- Scraper bodies, HTTP, LLM prompts, PDF and résumé parsing, extracting JSON from a reply.
- Argon2, RS256, SHA-256, ChaCha20-Poly1305 and base64 themselves; Redis and Postgres internals; how often the queue redelivers.
- `exclude_companies` and `min_salary` are stored by the program and not applied by the engine, so nothing is said of them.
- CRUD routers, pagination, dashboards, React components and middleware: they would only add easy members.
