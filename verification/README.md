# Verified models of the publishing core

This project models the parts of the repository whose correctness depends on state,
concurrency or byte arithmetic, and proves what they promise for every input, every run
and every behaviour of the outside world. `dafny verify dfyconfig.toml` checks all of it.

* **Terminal-QR attempts.** `QrTable` holds the critical sections run under the table's
  lock. `QrSystem` runs any number of request and timer threads over them, one atomic step
  at a time, with the compare-and-swap counter and its failures. `QrServer` is the same
  service call by call, and `QrClient` is the command-line loop that drives it over a link
  that may lose or replace anything.
* **Image checks.** `Base64` is section 4 of RFC 4648; `QrProtocol` has the client's
  streaming check and the runner's prefix check.
* **Publication queue.** `Jobs` gives each storage transaction as a function on tables, for
  the video and the article queue; `JobStore` is the mutable store that may refuse any
  transaction. `QueueRuns` interleaves arbitrary callers, `Fleet` any number of schedulers
  that may crash between transactions; `Registry` and `Scheduler` are one tick. `Schedule`
  relates the text order of due times to the order of moments.
* **WebDriver workflows.** `WebDriver` is the client: every reply comes from an arbitrary
  oracle and every exchange is recorded. `VideoFlow` is the per-platform workflow,
  `VideoLaws`, `VideoContent` and `VideoWaits` what it keeps to, `Evidence` what its steps leave
  in the trace, `ArticleFlow` the article workflow. The waits differ only
  in script, accepted words and attempts, so they share one loop; each job also has a plan,
  the list of steps it is to take, and the methods are proved to follow it.
* **Transformations.** `Upstream` normalises the upstream request, `Staging` copies remote
  media within a bound, `HistoryQuery` answers history queries.

Where an oracle stands for the outside (`replies`, `faults`, `cuts`, `names`, `plan`), each
theorem holds for all oracles.

Some intended laws do not hold of the code; each has its exact condition:

* The runner's and the client's checks of the same screenshot agree on one text only
  (`QrProtocol.ChecksAgreeOnOneText`): the runner demands a padded prefix, the client
  forbids padding before the end. With any other image a start leaves its session behind
  without a client that holds its token (`QrClient.RunTerminalQrLogin`).
* Due times are compared as text, but texts without leading zeros, with blanks or with a
  signed year are accepted and stored as they are: an accepted text compares correctly iff
  it is in its place among the padded ones (`Schedule.TextOrderIsRightIffInPlace`), for
  which a guard on its shape is enough (`Schedule.ShapedOrdersRightly`). It fails at
  `2026-9-01 00:00:00`, late, and at `2026- 9-01 00:00:00`, eight months early.
* A video completion settles a claim iff the job is dispatching; a queued job can be
  completed without one (`QueueRuns.SettlementsOfClaims`, `QueueRuns.VideoCompletesUnclaimed`).
* Documentation speaks of at-least-once delivery; a job is never claimed again
  (`Fleet.AbandonedForGood`) iff some scheduler crashed with it in hand or was refused the
  requeue after a failed completion (`Fleet.LostIff`, with runs for both in
  `Fleet.TwoWaysToLose`); every other claimed job can still be settled
  (`Fleet.NotLostCanSettle`).

By design, not by mistake, a Toutiao draft is saved only where the page's footer is
horizontal; on a vertical page the same job is published (`VideoLaws.DraftFollowsTheFooter`,
`VideoLaws.DraftEndsEitherWay`).

## Model

| member | source | states |
|---|---|---|
| `QrTable.RemoveAllConserves` | crates/matrixpost-webdriver-runner/src/service.rs:136-157 | a sweep takes exactly the listed tokens out of the table; every session taken out is in the swept list once, every other record is left as it was |
| `QrSystem.RunsKeepInvariant` | crates/matrixpost-webdriver-runner/src/service.rs:110-308 | in every interleaving of start, refresh, cancel, sweep, expiry timers and elapsing time, with failing and spuriously failing compare-and-swaps, the slot, session, accounting and timer laws hold after each atomic step |
| `QrSystem.StepConserves` | crates/matrixpost-webdriver-runner/src/service.rs:110-308 | one atomic step of one thread keeps the conservation laws, whatever the other threads are in the middle of |
| `QrSystem.SlotsAreConserved` | crates/matrixpost-webdriver-runner/src/service.rs:110-134 | after any interleaving the counter is the table size plus the slots in threads' hands and never exceeds four; a thread about to release always finds it positive, so the checked subtraction never underflows |
| `QrSystem.OpenSessionsBounded` | crates/matrixpost-webdriver-runner/src/service.rs:181-235 | sessions created and not yet closed are exactly the recorded ones and those in threads' hands, at most four |
| `QrSystem.SessionClosedExactlyOnce` | crates/matrixpost-webdriver-runner/src/service.rs:136-308 | a session is closed at most once; until then it is in the table or in one thread's hands, never both; nothing captures or closes it after its close |
| `QrSystem.EvictionIsJustified` | crates/matrixpost-webdriver-runner/src/service.rs:159-179 | a record leaves the table only when the time since its creation has reached the lifetime, on a failed capture by a refresh of its own token, or by its cancel; a stale timer cannot evict a younger record, even under a reused token |
| `QrSystem.OldRecordsGo` | crates/matrixpost-webdriver-runner/src/service.rs:136-179 | a sweep, a refresh of its token and its timer remove every record that old |
| `QrSystem.RecordsAreStable` | crates/matrixpost-webdriver-runner/src/service.rs:237-282 | a record that stays under its token is never exchanged or altered |
| `QrSystem.EveryRecordHasATimer` | crates/matrixpost-webdriver-runner/src/service.rs:159-179 | every recorded attempt has a thread that will look at its token once its lifetime is over |
| `QrSystem.FinishThread` | crates/matrixpost-webdriver-runner/src/service.rs:110-308 | from any reachable point every thread can be run to its end without moving the others; its compare-and-swap loop and its sweep need finitely many steps |
| `QrSystem.SlotsComeBack` | crates/matrixpost-webdriver-runner/src/service.rs:128-157 | every run can be continued to a quiescent state, where the counter, the table size and the number of open sessions are equal |
| `QrSystem.UninterruptedCall` | crates/matrixpost-webdriver-runner/src/service.rs:237-308 | run alone, a refresh, cancel or timer does what the whole call promises: the table becomes its critical section's, and a record taken over is closed last and its slot returned |
| `QrSystem.UninterruptedStart` | crates/matrixpost-webdriver-runner/src/service.rs:136-235 | run alone, a start does what the whole call promises: the expired records are swept and closed and their slots returned; then, iff a slot is free and every browser step succeeds, the session is recorded with a timer, and otherwise what was opened is closed last and no slot is kept |
| `QrServer.Server.constructor` | crates/matrixpost-webdriver-runner/src/service.rs:97-108 | a new server holds no attempt and no slot |
| `QrServer.Server.ReserveSlot` | crates/matrixpost-webdriver-runner/src/service.rs:110-126 | reserves iff fewer than four slots are taken, however often the weak exchange fails spuriously |
| `QrServer.Server.ReleaseSlot` | crates/matrixpost-webdriver-runner/src/service.rs:128-134 | a checked decrement that leaves zero alone |
| `QrServer.Server.RemoveExpired` | crates/matrixpost-webdriver-runner/src/service.rs:136-157 | a record stays, unchanged, iff less than the lifetime has passed since its creation; the others are each closed once and their slots returned |
| `QrServer.Server.Start` | crates/matrixpost-webdriver-runner/src/service.rs:181-235 | answers with a QR code iff fewer than four attempts survive the sweep, session and navigation succeed, both screenshots pass the runner's check and the page is the platform's; then exactly one fresh attempt is recorded under a new token of 32 characters; every other path leaves the swept table and closes what it created |
| `QrServer.Server.Refresh` | crates/matrixpost-webdriver-runner/src/service.rs:237-282 | timed out iff the token is recorded for this platform and at least the lifetime has passed since its creation; a QR answer iff it is younger and the capture passes the runner's check; refused otherwise; the record leaves unless the answer is a QR code |
| `QrServer.Server.Cancel` | crates/matrixpost-webdriver-runner/src/service.rs:284-307 | removes and closes the attempt iff token and platform match; answers cancelled only if the close succeeded |
| `QrServer.Server.FireTimer` | crates/matrixpost-webdriver-runner/src/service.rs:159-179 | a timer removes its record iff at least the lifetime has passed since the record's creation, and nothing else |
| `QrServer.SomeTokenIsFree` | crates/matrixpost-webdriver-runner/src/service.rs:310-321 | below the slot limit an unused well-formed token exists, so drawing one can succeed |
| `QrClient.IntoOutcome` | crates/matrixpost-core/src/runner/protocol.rs:338-400 | a response is believed iff its platform is the expected one, Douyin or WeChat Channels, and its token and image pass their checks; each kind becomes its own outcome |
| `QrClient.Link.Start` | crates/matrixpost-cli/src/terminal_qr.rs:29-33 | nothing is sent for a platform without terminal login; the server refuses a start only for want of a slot or a browser step, else it has just recorded the session behind the token; a delivered answer that passes the checks is exactly what the client gets, any other is a refusal |
| `QrClient.Link.Refresh` | crates/matrixpost-cli/src/terminal_qr.rs:34-38 | nothing is sent for a malformed token; the server answers with the token asked for and the new image iff the attempt stays recorded for this platform, and a delivered answer that passes the checks is exactly what the client gets |
| `QrClient.Link.Cancel` | crates/matrixpost-cli/src/terminal_qr.rs:39-43 | a cancel that reaches the server leaves no record of this platform under the token |
| `QrClient.RunTerminalQrLogin` | crates/matrixpost-cli/src/terminal_qr.rs:106-216 | whatever the link, the timers and other clients do: one start; refreshes go on exactly while replies carry a token and each image could be shown, at most twenty; each call names the latest token; one cancel, last, iff the start gave a token; exit code 3 iff the reply that ended it says unavailable, else 4. If only the server answers and the cancel arrives, the session is out of the table, closed once, and its slot free. If the start is answered with an image that passes the runner's check but is not the one prefix, the run ends there: no token, no cancel, and record, session and slot stay; the unreachable branch is not reached |
| `Base64.RoundTrip` | crates/matrixpost-core/src/runner/protocol.rs:415-470 | reference definition of section 4 of RFC 4648: encoding is well-formed, decodes to the bytes, and has the padded length |
| `Base64.PaddingIsLast` | crates/matrixpost-core/src/runner/protocol.rs:428-446 | in well-formed text padding is confined to the last two characters |
| `QrProtocol.Base64ValueInvertsDigit` | crates/matrixpost-core/src/runner/protocol.rs:472-481 | the digit table accepts exactly the 64 digits and inverts the encoding |
| `QrProtocol.ReadChunk` | crates/matrixpost-core/src/runner/protocol.rs:428-460 | one chunk is accepted iff it is a well-formed quantum, and the truncating 8-bit shifts produce its decoding |
| `QrProtocol.Accumulate` | crates/matrixpost-core/src/runner/protocol.rs:447-466 | the eight-byte accumulator holds the front of everything decoded so far |
| `QrProtocol.PngBase64IsValid` | crates/matrixpost-core/src/runner/protocol.rs:415-470 | true iff the length is a multiple of four in 12..1048576, the text is well-formed padded base64 and its decoding starts with the PNG signature of section 5.2 of the PNG specification |
| `QrProtocol.EncodedPngIsAccepted` | crates/matrixpost-core/src/runner/protocol.rs:415-470 | the standard encoding of a byte string is accepted iff the bytes start with the signature and fit the bound |
| `QrProtocol.ChecksAgreeOnOneText` | crates/matrixpost-webdriver-runner/src/webdriver/terminal_qr.rs:162-177 | the client's and the runner's image checks both accept a text iff it is the one padded prefix the runner looks for |
| `QrProtocol.RealScreenshotsAreRefused` | crates/matrixpost-webdriver-runner/src/webdriver/terminal_qr.rs:162-177 | of all images with the right signature the runner accepts the encoding iff the image is the bare signature |
| `QrProtocol.RunnerAcceptsIff` | crates/matrixpost-webdriver-runner/src/webdriver/terminal_qr.rs:162-177 | the runner takes the prefix followed by base64 digits and padding in any order, in whole quanta, up to the bound |
| `QrProtocol.TokenIsValidMeans` | crates/matrixpost-core/src/runner/protocol.rs:407-413 | a token is one to 128 letters, digits, dashes and underscores |
| `Jobs.NextFree` | crates/matrixpost-core/src/storage.rs:724-760 | the retry loop over taken history identifiers stops at the first free number above the sequence, for every finite table |
| `Jobs.AheadShrinks` | crates/matrixpost-core/src/storage.rs:724-760 | each collision uses up one stored identifier for good, which is the loop's measure |
| `Text.NumberedInjective` | crates/matrixpost-core/src/storage.rs:188-194 | different sequence numbers give different identifiers |
| `Text.DecimalReadsBack` | crates/matrixpost-core/src/storage.rs:188-194 | a sequence number prints as the decimal digits that stand for it, without leading zeros |
| `Jobs.ClaimTakesFront` | crates/matrixpost-core/src/storage.rs:488-550 | a claim takes the first min(limit, 64) due queued jobs in (due text, identifier) order, bumps exactly these rows by one revision, and stays below the cap only if no due job is left |
| `Jobs.ClaimMoves` | crates/matrixpost-core/src/storage.rs:488-550 | a claim takes only queued jobs whose due text does not sort behind the given one, at most 64 and at most the limit, and all of them if fewer; it moves exactly these to dispatching, one revision on |
| `Jobs.ClaimOrder` | crates/matrixpost-core/src/storage.rs:507-522 | what it takes sorts by due text, and by identifier where these agree, before what follows and what it leaves |
| `Jobs.TransitionGraph` | crates/matrixpost-core/src/types/article.rs:106-132 | the eight transitions allowed, and no others |
| `Jobs.FirstOfIsFront` | crates/matrixpost-core/src/storage.rs:507-522 | the candidate list is sorted, without repetition, and nothing left out comes before anything taken |
| `Jobs.BeforeIsOrder` | crates/matrixpost-core/src/storage.rs:507-522 | the candidate order is total, transitive, and equal only for equal identifiers |
| `Jobs.CompleteWritesOneRow` | crates/matrixpost-core/src/storage.rs:374-427 | a completion that goes through moves this job only and adds one row under an identifier not in use |
| `JobStore.Store.UpdateRow` | crates/matrixpost-core/src/storage.rs:340-372 | the guarded update changes the row iff revision (and state, where demanded) still match, and reports how many rows it changed |
| `JobStore.Store.InsertTerminalHistory` | crates/matrixpost-core/src/storage.rs:724-760 | the loop stores the record under the first free generated identifier |
| `JobStore.Store.RecordProviderDispatch` | crates/matrixpost-core/src/storage.rs:276-296 | a direct dispatch adds one row under a free identifier, with the request's account routing removed, published iff its report is non-empty and every provider accepted, unavailable iff it is non-empty and none was available, failed otherwise; all other rows stay |
| `JobStore.Store.AllocateJobId` | crates/matrixpost-core/src/storage.rs:188-194 | a fresh number in a transaction of its own, or no effect |
| `JobStore.Store.Enqueue` | crates/matrixpost-core/src/storage.rs:455-477 | a request that does not validate, also for empty or repeated targets, touches nothing; otherwise the new job, its account routing removed, is stored under a new identifier as queued, or as a draft if it is one, or the job table is unchanged |
| `JobStore.Store.TransitionJob` | crates/matrixpost-core/src/storage.rs:332-373 | refused with the reason the checks give in their order, or exactly one row moved one revision on |
| `JobStore.Store.CompleteJobWithHistory` | crates/matrixpost-core/src/storage.rs:374-427 | job and history row are written together or not at all: the job one revision on in the given state, the row with the job's request and no account routing; refused with the reason the checks give in their order; the article queue also demands a claimed job |
| `JobStore.Store.RequeueClaim` | crates/matrixpost-core/src/storage.rs:552-599 | only a dispatching job at the given revision goes back to queued, one revision on |
| `JobStore.Store.ClaimRows` | crates/matrixpost-core/src/storage.rs:523-548 | inside the transaction every candidate row still matches, so the concurrent-update branch is never taken |
| `JobStore.Store.ClaimDue` | crates/matrixpost-core/src/storage.rs:488-550 | the method returns and marks exactly the selection, or has no effect |
| `JobStore.FirstIsUnique` | crates/matrixpost-core/src/storage.rs:507-522 | the first job of a set in claim order is unique, so the query's answer is determined |
| `QueueRuns.RunsAreFenced` | crates/matrixpost-core/src/storage.rs:332-427 | in every interleaving of arbitrary callers each effective write finds the revision its predecessor on that job left, and generated identifiers stay unused |
| `QueueRuns.TicketsAreFenced` | crates/matrixpost-core/src/storage.rs:488-599 | no ticket is issued by two claims or settled twice, and a claimant whose ticket was settled by anyone cannot change the job again; for both queues |
| `QueueRuns.EnqueueNeverCollides` | crates/matrixpost-core/src/storage.rs:455-477 | an enqueue overtaken between its two steps still inserts without collision |
| `QueueRuns.JobsFollowTheirLaw` | crates/matrixpost-core/src/storage.rs:374-427 | without manual advances, a job is terminal iff exactly one completion wrote its row, claims never exceed requeues by more than one, and a live job's state follows from its revision's parity |
| `QueueRuns.CompletionsKeepTheirRows` | crates/matrixpost-core/src/storage.rs:374-427 | each completion's history row stays, states its outcome, and is no other completion's |
| `QueueRuns.TerminalIsFinal` | crates/matrixpost-core/src/types/article.rs:106-132 | a terminal job never changes again, whatever transactions follow |
| `QueueRuns.SettlementsOfClaims` | crates/matrixpost-core/src/storage.rs:374-427 | a requeue, and an article completion, always settles a claim; a video completion does iff the job is dispatching |
| `QueueRuns.VideoCompletesUnclaimed` | crates/matrixpost-core/src/storage.rs:374-427 | a queued video job nobody claimed can be completed as failed: enqueue and complete suffice |
| `QueueRuns.StoredRequestsValidate` | crates/matrixpost-core/src/storage.rs:455-477 | in every run every stored video request validates, so no claim ever hands out one the registry would refuse as malformed |
| `QueueRuns.RoutingIsNeverStored` | crates/matrixpost-core/src/storage.rs:374-477 | in every run no stored job and no row written by a completion carries account routing |
| `Fleet.FleetsKeepInvariant` | crates/matrixpostd/src/scheduler.rs:28-133 | with any number of schedulers, refusals and crashes between any two transactions, tickets in hand are live and no job is in two hands |
| `Fleet.SettlementsNeverStale` | crates/matrixpostd/src/scheduler.rs:28-133 | a scheduler's next ticket always passes every check of completion and requeue; only storage itself can refuse it |
| `Fleet.OneHolderPerJob` | crates/matrixpostd/src/scheduler.rs:28-133 | a dispatching job is in exactly one scheduler's hands or abandoned, never both |
| `Fleet.AbandonedForGood` | crates/matrixpostd/src/scheduler.rs:28-133 | a job whose completion and requeue both failed, or whose scheduler died, stays dispatching for ever, whatever follows |
| `Fleet.LostIff` | crates/matrixpostd/src/scheduler.rs:66-88 | a job is lost iff a scheduler crashed with it in hand, or was refused the requeue of it |
| `Fleet.RecoveryFollowsFailure` | crates/matrixpostd/src/scheduler.rs:66-88 | a scheduler tries a requeue only right after its own completion of the same ticket failed |
| `Fleet.NothingLostWithoutFailure` | crates/matrixpostd/src/scheduler.rs:28-133 | in runs without crash and without refused requeue no job is lost, whatever completions are refused |
| `Fleet.NotLostCanSettle` | crates/matrixpostd/src/scheduler.rs:28-133 | every other dispatching job is in some scheduler's hands, and the run can be continued without failure until it is queued again |
| `Fleet.TwoWaysToLose` | crates/matrixpostd/src/scheduler.rs:28-133 | both ways happen: enqueue, claim, crash; and enqueue, claim, refused completion, refused requeue |
| `Registry.Validate` | crates/matrixpost-core/src/types/video/request.rs:61-114 | accepts iff the request is otherwise sane and its targets are non-empty and distinct |
| `Registry.Dispatch` | crates/matrixpost-core/src/runner/provider/registry.rs:123-145 | one platform's outcome, or an error for a malformed request or a platform not asked for |
| `Registry.DispatchAll` | crates/matrixpost-core/src/runner/provider/registry.rs:152-168 | a report exists iff the request validates, and is the one given by its targets' providers |
| `Registry.ReportMeans` | crates/matrixpost-core/src/runner/provider/registry.rs:123-168 | it is keyed by exactly the targets; a missing or unavailable provider is unavailable, one that fails refuses, any other answer is the outcome |
| `Registry.TickOutcomeMeans` | crates/matrixpostd/src/scheduler.rs:45-66 | published iff there is a report and every target accepted, unavailable iff there is one with entries and none was available, failed otherwise |
| `Registry.StoredOutcomeMeans` | crates/matrixpost-core/src/storage.rs:698-718 | the storage layer says the same of reports with entries, and failed of the empty one |
| `Registry.ClassifiersAgree` | crates/matrixpost-core/src/storage.rs:698-718 | the scheduler's and the storage layer's classification of a report agree iff it is not empty |
| `Registry.DispatchedReportsAgree` | crates/matrixpost-core/src/runner/provider/registry.rs:152-168 | a dispatched report is never empty, so both classify it alike |
| `Scheduler.SettleClaim` | crates/matrixpostd/src/scheduler.rs:66-88 | completion is tried first and requeue exactly when it failed: terminal one revision on with one new row iff completion goes through, else queued one revision on iff requeue does, else unchanged; nothing else changes |
| `Scheduler.VideoPass` | crates/matrixpostd/src/scheduler.rs:37-88 | every claimed video job is settled so, in order, by the next transactions, with the outcome its report is classified as; each finished one has a row of its own |
| `Scheduler.ArticlePass` | crates/matrixpostd/src/scheduler.rs:89-133 | every claimed article is settled so, in order, with the outcome the runner's reply is classified as |
| `Scheduler.RunSchedulerTick` | crates/matrixpostd/src/scheduler.rs:28-133 | one tick claims at most the batch size over both queues, leaves unclaimed jobs alone, and settles each claimed job as above; it ends with an error iff a claim is refused, and that claim has no effect |
| `Scheduler.FaultFreePassFinishes` | crates/matrixpostd/src/scheduler.rs:66-88 | if no transaction is refused during a pass, every claimed job ends terminal with its outcome (for articles, if no row was stored ahead of the sequence beforehand) |
| `Scheduler.LeftIffBothFailed` | crates/matrixpostd/src/scheduler.rs:66-88 | a claimed job is terminal, queued or dispatching after the pass iff its completion was accepted, only its completion was refused, or both its transactions were (for articles, if no row was stored ahead of the sequence beforehand) |
| `Scheduler.OutcomesAreStored` | crates/matrixpostd/src/scheduler.rs:45-66 | in every run of the queue a tick's outcome for a video job is the storage layer's classification of its dispatch report |
| `Scheduler.ArticlesEndAsAnswered` | crates/matrixpostd/src/scheduler.rs:89-133 | an article's outcome is published iff there is a runner and it accepted, unavailable iff there is none or it says so, failed otherwise; if no transaction of the pass is refused, its job and a new row of its own end in that state |
| `Scheduler.VideosEndAsReported` | crates/matrixpostd/src/scheduler.rs:37-88 | a video's outcome is published iff its request validates and every target's provider is available and accepts, unavailable iff it validates and none is available, failed otherwise; if no transaction of the pass is refused, its job and a new row of its own end in that state |
| `Schedule.ParseInvertsSpelling` | crates/matrixpost-core/src/types/video/primitives.rs:15-25 | a moment spelled with or without leading zeros, with blanks before any number, with a sign and any number of digits in its year, parses back to itself |
| `Schedule.AcceptedIsSpelled` | crates/matrixpost-core/src/types/video/primitives.rs:15-25 | every accepted text is such a spelling of the moment it denotes |
| `Schedule.AcceptedMoments` | crates/matrixpost-core/src/types/video/primitives.rs:15-25 | such a spelling is accepted iff its year is in the library's range, its day exists in the Gregorian calendar and its time of day exists, a leap second included |
| `Schedule.TextOrderIsTimeOrder` | crates/matrixpostd/src/scheduler.rs:135-142 | for zero-padded schedules lexicographic order is chronological order |
| `Schedule.TextOrderIsRightIffInPlace` | crates/matrixpost-core/src/types/video/primitives.rs:15-25 | any accepted text compares correctly with every scheduler time iff it sorts up to the padded text of its own moment and behind that of the moment before |
| `Schedule.ShapedOrdersRightly` | crates/matrixpost-core/src/types/video/primitives.rs:15-25 | a guard on the shape suffices: digits and separators at their fixed places, or all of this but a second shortened to `0` |
| `Schedule.RightOrderNeedsShape` | crates/matrixpost-core/src/types/video/primitives.rs:15-25 | for moments with a four-digit year and a second other than zero the guard is also necessary, and the text is the padded one |
| `Schedule.SeptemberIsDueInJanuary` | crates/matrixpost-core/src/types/video/primitives.rs:15-25 | the accepted text `2026- 9-01 00:00:00` has the padded length and is due at New Year 2026 |
| `Schedule.UnpaddedJobIsNotDue` | crates/matrixpost-core/src/types/video/primitives.rs:15-25 | the accepted text `2026-9-01 00:00:00` is not due in October 2026 |
| `Schedule.ClaimsAreChronological` | crates/matrixpost-core/src/storage.rs:507-522 | with padded schedules a claim takes jobs whose time has come, earliest first, and passes one over only at the cap and only for jobs no later than it |
| `WebDriver.Browser.constructor` | crates/matrixpost-webdriver-runner/src/webdriver/model.rs:60-65 | a fresh client has made no request and numbers jobs from one |
| `WebDriver.Browser.Session` | crates/matrixpost-webdriver-runner/src/webdriver/primitives.rs:12-25 | one request, and the session it names if any |
| `WebDriver.Browser.DeleteSession` | crates/matrixpost-webdriver-runner/src/webdriver/primitives.rs:87-94 | one request in the session, successful iff it is answered with a value |
| `WebDriver.Browser.Locate` | crates/matrixpost-webdriver-runner/src/webdriver/primitives.rs:27-56 | selectors in turn, three rounds, ending with the first element named; errors count as not found |
| `WebDriver.Browser.Input` | crates/matrixpost-webdriver-runner/src/webdriver/primitives.rs:67-75 | a search, then the text into exactly the element found |
| `WebDriver.Browser.ClickOn` | crates/matrixpost-webdriver-runner/src/webdriver/primitives.rs:77-85 | a search, then a click on exactly the element found |
| `WebDriver.Browser.Poll` | crates/matrixpost-webdriver-runner/src/webdriver/fanqie.rs:35-97 | the bounded waits of all platforms: the same script until its reply settles the matter, success iff the last reply is an accepted one, never more than the attempts |
| `WebDriver.Browser.SuccessMarkerVisible` | crates/matrixpost-webdriver-runner/src/webdriver/primitives.rs:122-135 | each selector in turn, each element found asked for its visibility, stopping at the first visible one or unclear answer |
| `WebDriver.PassAsksForBoth` | crates/matrixpost-webdriver-runner/src/webdriver/primitives.rs:96-135 | a pass that saw no marker asked for both selectors and, of every element found, whether it is visible, and was told no |
| `WebDriver.Browser.WriteCodeMirror` | crates/matrixpost-webdriver-runner/src/webdriver/article.rs:39-51 | a search, then the body into exactly the element found, verified by the reply |
| `VideoFlow.SetSavePermission` | crates/matrixpost-webdriver-runner/src/webdriver/douyin.rs:61-88 | looks go on exactly while replies are pending, at most so often; the control is clicked only right after it was reported ready; success iff the last look says selected or clicked |
| `VideoFlow.ApplyToutiaoStatement` | crates/matrixpost-webdriver-runner/src/webdriver/toutiao.rs:28-59 | the source checkbox is touched once and only if reported unchecked; a click is followed by a wait that goes on while replies say no, and success is exactly what the last reply says |
| `VideoFlow.NormalizePkCover` | crates/matrixpost-webdriver-runner/src/webdriver/xiaohongshu.rs:71-98 | the cover option is left alone unless checked; then it is cleared once and waited for while it stays checked, until seen unchecked |
| `VideoFlow.TryDeclareOriginal` | crates/matrixpost-webdriver-runner/src/webdriver/interaction.rs:108-152 | the questions of the optional declaration follow each other exactly as the answers demand, each asked as often as it may be; success iff it was not offered, no dialog came up, or its dialog went away |
| `VideoFlow.PublishFooter` | crates/matrixpost-webdriver-runner/src/webdriver/toutiao.rs:77-119 | one action, sent only after a ready footer, naming the action its layout allows |
| `VideoFlow.WaitForSuccess` | crates/matrixpost-webdriver-runner/src/webdriver/primitives.rs:137-154 | passes over the success markers until one is visible; only that succeeds |
| `VideoFlow.InputTags` | crates/matrixpost-webdriver-runner/src/webdriver/bilibili.rs:48-70 | each tag submitted and committed before the next; a blank one stops |
| `VideoFlow.ChooseProduct` | crates/matrixpost-webdriver-runner/src/webdriver/interaction.rs:38-58 | the product's row is searched for and awaited step by step, stopping at the first failure |
| `VideoFlow.AttachChosen` | crates/matrixpost-webdriver-runner/src/webdriver/interaction.rs:59-72 | exactly that product is selected, added and seen attached |
| `VideoFlow.ApplyStatement` | crates/matrixpost-webdriver-runner/src/webdriver/interaction.rs:74-106 | each platform's statement steps in order, stopping at the first failure |
| `VideoFlow.PublishFanqie` | crates/matrixpost-webdriver-runner/src/webdriver/fanqie.rs:99-126 | channels first, then readiness, one action, and the result |
| `VideoFlow.ActWhenReady` | crates/matrixpost-webdriver-runner/src/webdriver/baijiahao.rs:60-92 | the action script runs only after its readiness wait succeeded, also for Kuaishou |
| `VideoFlow.Work` | crates/matrixpost-webdriver-runner/src/webdriver/video.rs:37-129 | the steps of the job's plan in order up to the first that fails, each having exchanged only what it may |
| `VideoContent.CommitIsTheJobs` | crates/matrixpost-webdriver-runner/src/webdriver/video.rs:103-128 | what is committed is what the job asks for: on Douyin, WeChat Channels, Bilibili and Xiaohongshu a click on the element just found for the draft button iff the job is a draft, else for the submit button; Baijiahao's script is told draft or publish accordingly; Kuaishou and Fanqie have no drafts |
| `VideoContent.CommitFollowsContent` | crates/matrixpost-webdriver-runner/src/webdriver/video.rs:37-80 | before that the upload page was opened, and file, title, short title and description were typed in this order, each into the element just found for its field |
| `VideoContent.CommitFollowsTags` | crates/matrixpost-webdriver-runner/src/webdriver/bilibili.rs:48-70 | Bilibili's tags were submitted and seen committed one after the other, none of them blank |
| `VideoContent.CommitFollowsProduct` | crates/matrixpost-webdriver-runner/src/webdriver/interaction.rs:38-72 | the WeChat product was searched for and selected by its identifier, added and seen attached, step by step |
| `VideoContent.CommitFollowsStatement` | crates/matrixpost-webdriver-runner/src/webdriver/interaction.rs:74-106 | the job's statement was chosen by the steps its platform demands, in order, and seen to have taken effect |
| `VideoContent.CommitFollowsPreparation` | crates/matrixpost-webdriver-runner/src/webdriver/video.rs:80-102 | Douyin's preview was ready and its permission given, WeChat's declaration had ended well before its upload was ready, Xiaohongshu's cover option was off |
| `VideoContent.CommitFollowsInOrder` | crates/matrixpost-webdriver-runner/src/webdriver/video.rs:37-102 | these came in the order title, product, permission, statement, declaration, cover |
| `VideoContent.CommitFollowsChannels` | crates/matrixpost-webdriver-runner/src/webdriver/fanqie.rs:99-126 | Fanqie's upload was ready, its panel opened and its channels selected, in order, before its action was ready |
| `VideoContent.TypesOnlyTheJobs` | crates/matrixpost-webdriver-runner/src/webdriver/video.rs:37-80 | whatever a publication types is its job's file, title, short title or description, in the element just found for that field |
| `VideoContent.RefusalsMean` | crates/matrixpost-webdriver-runner/src/webdriver/video.rs:7-28 | a job is refused, without any request, iff it has no local file, its WeChat product does not resolve, or it is a draft for Fanqie or Kuaishou |
| `VideoWaits.WaitsArePatient` | crates/matrixpost-webdriver-runner/src/webdriver/fanqie.rs:35-97 | no wait is given up upon a reply that says not yet: it is followed by the same request, or was the last of the 30 or 150 the wait has |
| `Evidence.DeclaringEnds` | crates/matrixpost-webdriver-runner/src/webdriver/interaction.rs:108-152 | the optional declaration ends well only on not being offered, no dialog coming up or following, or its dialog being gone, and always on the first, the second and the last of these |
| `Evidence.DeclaringConsents` | crates/matrixpost-webdriver-runner/src/webdriver/interaction.rs:108-152 | neither the protocol nor the declaration is confirmed before its dialog was reported up |
| `VideoLaws.Publish` | crates/matrixpost-webdriver-runner/src/webdriver/video.rs:6-135 | refused without a request, or one session whose work follows the plan and whose deletion is the last request; accepted iff work and deletion succeeded |
| `VideoLaws.SessionIsBracketed` | crates/matrixpost-webdriver-runner/src/webdriver/video.rs:37-134 | for every page and platform: at most one session, asked for first; if granted, every other request is made in it and the last, and only the last, deletes it |
| `VideoLaws.PublicationIsBounded` | crates/matrixpost-webdriver-runner/src/webdriver/video.rs:37-134 | at most 698 + 31 per tag + 4 per acknowledgement attempt requests |
| `VideoLaws.PublishesAtMostOnce` | crates/matrixpost-webdriver-runner/src/webdriver/video.rs:103-128 | at most one request of a publication can publish or save the draft |
| `VideoLaws.PublishesOnlyWhenReady` | crates/matrixpost-webdriver-runner/src/webdriver/video.rs:103-128 | that request comes after a complete check that saw no success marker (all but Fanqie) and after the page answered the readiness probe with ready (all but Xiaohongshu, which has none); on Baijiahao, Kuaishou, Fanqie and Toutiao that is the exchange immediately before, with the same argument on Baijiahao |
| `VideoLaws.AcceptedMeansConfirmed` | crates/matrixpost-webdriver-runner/src/webdriver/video.rs:126-134 | an accepted job was published, and its success marker, or Fanqie's success result, was seen afterwards |
| `VideoLaws.DraftFollowsTheFooter` | crates/matrixpost-webdriver-runner/src/webdriver/toutiao.rs:77-119 | in a Toutiao publication the one committing request is the draft action iff a draft is wanted and the exchange before reported a horizontal footer, and the submit action iff no draft is wanted or the footer is vertical |
| `VideoLaws.DraftEndsEitherWay` | crates/matrixpost-webdriver-runner/src/webdriver/toutiao.rs:97-119 | both happen: an accepted draft job whose page is horizontal is saved, one whose page is vertical is published |
| `VideoLaws.OneStepCommits` | crates/matrixpost-webdriver-runner/src/webdriver/video.rs:37-129 | of all the steps of any job exactly one may publish |
| `VideoLaws.PlanIsBounded` | crates/matrixpost-webdriver-runner/src/webdriver/video.rs:37-129 | the plan's steps together have the bound above |
| `ArticleFlow.PublishArticle` | crates/matrixpost-webdriver-runner/src/webdriver/article.rs:167-226 | no request for an invalid article, else one session around the plan; accepted iff work and deletion succeeded; the error says automation was attempted iff any request went out |
| `ArticleFlow.SessionIsBracketed` | crates/matrixpost-webdriver-runner/src/webdriver/article.rs:182-223 | one session per article, deleted by the last request and used by all others |
| `ArticleFlow.AtMostTwoClicks` | crates/matrixpost-webdriver-runner/src/webdriver/article.rs:211-219 | the panel and the confirmation are the only clicks |
| `ArticleFlow.MarkersCheckedBeforeClicks` | crates/matrixpost-webdriver-runner/src/webdriver/article.rs:211-219 | both come after a complete check that saw no success marker |
| `ArticleFlow.ContentBeforeClicks` | crates/matrixpost-webdriver-runner/src/webdriver/article.rs:182-210 | before any click the editor was opened and title, body, cover, category, tags and summary, as far as given, were entered in this order, each into the element just found for its field |
| `ArticleFlow.ClicksAre` | crates/matrixpost-webdriver-runner/src/webdriver/article.rs:211-219 | a click is on the panel button just found, or on the confirmation just found after the panel's had succeeded |
| `ArticleFlow.AcceptedMeansConfirmed` | crates/matrixpost-webdriver-runner/src/webdriver/article.rs:24-37 | an accepted article had the panel just found clicked, then the confirmation just found, and its success marker was seen afterwards |
| `Upstream.Normalize` | crates/matrixpost-core/src/types/video/upstream.rs:157-296 | unknown names are refused; else one override per platform mentioned anywhere, strictly in platform order, holding what the field and statement laws give it, with matching targets that pass the target checks unless there are none |
| `Upstream.ApplyStatements` | crates/matrixpost-core/src/types/video/upstream.rs:192-210 | each platform's statement goes to its first override, or to one appended for it; all else stays |
| `Upstream.MergeAll` | crates/matrixpost-core/src/types/video/upstream.rs:211-236 | the map holds, for each platform, the last present value of every field |
| `Upstream.MergedIsLaw` | crates/matrixpost-core/src/types/video/upstream.rs:192-236 | the merge of the patched list is what the laws say: each field's last present value, and for the statement an option after the first, else the last per-platform entry, else the first option's |
| `Upstream.InOrder` | crates/matrixpost-core/src/types/video/upstream.rs:237-241 | the map's values in strict platform order, none lost |
| `Upstream.FillDefault` | crates/matrixpost-core/src/types/video/upstream.rs:287-293 | the default statement fills exactly the gaps |
| `Upstream.SortedPasses` | crates/matrixpost-core/src/types/video/request.rs:79-101 | such overrides with equal targets can fail the target checks only by being absent |
| `Upstream.SourcesInOrder` | crates/matrixpost-core/src/types/video/upstream.rs:157-170 | options come after platforms, these after platform, each in its own order |
| `Upstream.BaseMeans` | crates/matrixpost-core/src/types/video/upstream.rs:171-191 | each option becomes an override for the platform it names with its own fields; its account takes phone and partition from the option where given, else the common ones |
| `Upstream.OptionsRead` | crates/matrixpost-core/src/types/video/upstream.rs:107-122 | an option listed under a key is for the platform it names, or for the key if it names none |
| `Upstream.LastFromMeans` | crates/matrixpost-core/src/types/video/upstream.rs:211-236 | the law's value of a field is present in some override of the platform and absent in all later ones |
| `Upstream.EntryForMeans` | crates/matrixpost-core/src/types/video/upstream.rs:192-210 | the per-platform statement is the last one named for the platform |
| `Staging.Machine.CreateUnique` | crates/matrixpost-core/src/media.rs:181-193 | names are drawn until one is free, at most sixteen; the free name is created unless that is refused; gives up for names iff all sixteen were taken |
| `Staging.Machine.CopyOrDiscard` | crates/matrixpost-core/src/media.rs:194-212 | keeps a file holding the whole body iff the copy is not refused and the body is within the bound; otherwise tries once to remove it, reporting a body beyond the bound as one byte too long |
| `Staging.Machine.Stage` | crates/matrixpost-core/src/media.rs:153-214 | the result is the one the response, the names and the refusals determine; success adds one new file holding exactly the body within the bound; an error leaves the files as they were unless the removal was refused |
| `Staging.StagingSucceedsIff` | crates/matrixpost-core/src/media.rs:153-214 | staging succeeds iff type and announced length are acceptable, the body is within the bound, one of the next sixteen names is free, and neither directory, creation nor copy is refused |
| `Staging.StagingErrors` | crates/matrixpost-core/src/media.rs:153-214 | each error names its cause; an announced length too large is reported as it is, a body too large as one byte beyond the bound |
| `Staging.Machine.PublishWithStagedMedia` | crates/matrixpost-webdriver-runner/src/service.rs:452-478 | a remote source is executed iff staging succeeded, once, on the complete bounded body, staged right before and removed once right after; success iff staging, execution and removal all succeeded, the executor's error iff the execution failed, whatever the removal did, the cleanup error iff only the removal failed; for a local file success iff the execution succeeded; files are as before on every return unless that removal was refused |
| `HistoryQuery.Filter` | crates/matrixpost-cli/src/query.rs:160-184 | the matching records sorted newest first, then by identifier, cut at the limit |
| `HistoryQuery.AnswerIsTheFront` | crates/matrixpost-cli/src/query.rs:160-184 | matching records only, as many as there are up to the limit, and no omitted match sorts before a returned one |
| `HistoryQuery.AnswerInWords` | crates/matrixpost-cli/src/query.rs:160-184 | returned records are not older than the cutoff, for the platform, in the state, of the account and within the inclusive days asked for, newest first and then by identifier; a record that qualifies is missing only from a full answer that holds none later in this order |
| `HistoryQuery.AnswerIgnoresStorageOrder` | crates/matrixpost-cli/src/query.rs:160-184 | with unique identifiers the answer is the same for every order of the stored history |
| `HistoryQuery.MatchingSplits` | crates/matrixpost-core/src/lifecycle.rs:324-345 | each record is retained or dropped on its own, in place: the retained records keep their order and multiplicity |

## Left out

- SQL text, JSON encoding, HTTP and mutex poisoning: tables are maps, a transaction commits or has no effect, a lock is always obtained.
- A commit that takes effect but is reported as failed.
- Overflow of revisions and sequence numbers: both are unbounded naturals.
- `insert_job` with a state of the caller's choosing, and a video completion to a non-terminal state, which no caller asks for.
- QueueRuns.JobsFollowTheirLaw: leaves manual `advance` out, because it moves a job without writing history; the fencing theorems include it.
- Token randomness: any unused well-formed token may be drawn. Time is a natural number that never decreases.
- The PNG decoder and the terminal rendering of its pixels: each frame either renders or does not.
- QrClient.IntoOutcome: does not model the protocol version field, because every response carries the one constant.
- Schedule.TextOrderIsTimeOrder: takes the scheduler's clock to have a four-digit year.
- Scheduler.SettleClaim: does not state the wording of a row's detail, which only depends on the outcome.
- The injected scripts, the CSS selectors and the page addresses: each script is a name and its reply arbitrary.
- Error messages: a step succeeds or fails.
- Sleeping between attempts.
- How titles, descriptions, product identifiers and statement labels are resolved from a request: the workflow starts from the resolved texts.
- ArticleFlow.PublishArticle: takes the result of validating the article as an input, because its size and file checks are settled by reading.
- Platform alias tables: `Upstream` takes the name parser as a parameter.
- Upstream.Normalize: does not model the shared product link, the file source, the schedule and the plain fields, which are copied.
- Staging.Machine.Copy: does not model single reads and writes, because a failing copy may leave any part of the body anyway.
- Account routing: `runner_safe` is one flag on the request; account storage, lifecycle objects, ledgers and migrations would only add easy members.
- The other review, login and status probes of the runner, the desktop shell and the command-line parser.
