# Metadata Inventory: a Dafny model of the fetch pipeline

Metadata Inventory answers `POST` and `GET /v1/metadata` from MongoDB, queues fetches on Kafka and
lets a worker fetch URLs and store the results. This project models that pipeline and proves what
holds of it over whole runs. `dafny verify dfyconfig.toml` checks everything.

## How the model is laid out

- **Values** (`Types.dfy`): records, fetch results, replies of foreign calls. A call that reports an
  error may or may not have taken effect on the server; both are modelled.
- **Stores** (`Store.dfy`, `Mongo.dfy`, `Mock.dfy`): the Mongo collection as documents with its two
  unique indexes, its view as a map keyed by `url_hash`, and the in-memory test double. The two
  repositories are classes; the lemmas are about every history of writes.
- **The pipeline as a step system** (`Pipeline.dfy`): every repository call, fetch, publish and
  dead-letter write of every request and every delivery is one atomic step; any number of them
  interleave, a message may be delivered any number of times and to several consumers at once, and
  a run is any list of labels. `Safety.dfy`, `Progress.dfy`, `Http.dfy` and `Content.dfy` prove
  what all runs keep.
- **The code itself** (`Service.dfy`, `Http.dfy`, `Worker.dfy`, `Consumer.dfy`, `Producer.dfy`,
  `Fetcher.dfy`): classes whose methods follow the source branch by branch, proved against
  functions; `Service.dfy` and `Delivery.dfy` then prove that an uninterrupted call or delivery is
  a run of the pipeline, so that both descriptions are of one system.
- **Whole requests** (`OneJob.dfy`, `ApiMap.dfy`): what changes when requests do not interleave.
- **Commits** (`Broker.dfy`, `AtLeastOnce.dfy`): partitions, committed offsets and consumer sessions
  that crash, restart, rebalance, are cancelled and fail to commit. `Sessions.dfy` proves that the
  consume loop is such a session. `Schedules.dfy` joins the two systems: each event of the whole
  names the broker's part and the pipeline's, and the two are proved to agree in every history.
- **Retry timing** (`RetryPolicy.dfy`) and the **rate limiter** (`RateLimiter.dfy`, `RateBound.dfy`).

Assumptions about the environment: a single-document update is atomic; an accepted commit sets the
partition's offset to the maximum of its old value and the message's offset plus one; cancellation
is permanent; clock readings never decrease within the limiter; only this producer writes the
topic. The URL hash is a parameter of every module. Nothing assumes that it is injective unless a
row says so, and then the exact condition is proved. Clocks, network answers, fetched responses and
the partition the balancer picks are parameters of the calls that use them.

## Where the code does less than its documentation says

- `docs/adr/001-async-fetch-and-retry.md:21` and `docs/runbook.md:17` say that offsets stay
  uncommitted while the dead-letter topic is down. The consumer goes on to the next message, whose
  commit covers the failed one (`AtLeastOnce.LiveDltFailureIsOvertaken`). The promise holds exactly
  when no commit overtakes a message given up before it. A cancelled session that gives a message
  up never commits again, so only a dead-letter write that fails in a live one can break it.
- `worker/consumer/consumer.go:65` says that marking a record as fetching prevents concurrent
  fetches, and `pkg/kafka/producer.go:58-60` that one URL stays on one partition. The balancer
  ignores the key, and with retries two deliveries can fetch one URL at once and turn a ready record
  into a failed one (`OneJob.RetriesBreakOneJob`). With whole requests and no faults, each record in
  progress has one live job exactly when the retry limit is zero
  (`OneJob.OneJobExactlyWithoutRetries`).
- `README.md:39` of the repository ties 201 to a successful inline fetch. What 201 carries is what
  was written last under the hash: a failed record exactly if the last write of another process since
  its own says failed (`Http.CreatedIsTheLastWrite`, `Http.InlineCreatedFailed`). In async-only mode POST also
  answers 201, not the 202 of `README.md:41`, when the record it reads back is already finished
  (`Http.AsyncPostAnswersCreated`).
- `README.md:57` says offsets are committed only after success or a dead letter. Malformed messages
  and, under a negative retry limit, all messages are committed unhandled.
- A delivery can be dead-lettered and committed while its record stays in progress. It leaves the
  record in progress exactly when none of its terminal writes took effect from its last effective
  mark on, or at all if it had none and the record was in progress before
  (`Consumer.LeftInProgressExactly`, `Progress.LostTerminalWritesOrphan`).
- After a rebalance two consumers can have one message. If one finishes the record and commits and
  the other then marks the record as fetching and dies, nobody will ever finish it
  (`Progress.CrashOfSettledOrphans`); the same if it dies while the first writes the dead letter
  (`Progress.CrashBesideDeadLetterOrphans`). Under a limit of zero or
  more, these and five more faults are all that can, each only when it hits the last one attending
  to the record (`Progress.HypothesesAreExact`, `Progress.AttendedExactly`).
- The sweep of the rate limiter computes twice its window in int64. A window above half of that range
  makes it drop entries in use; invisible sweeps, independent keys and the rate bound then all fail
  (`RateBound.PromisesHoldExactlyIfItDoubles`). The server asks for one minute.

## Model

| member | source | states |
|---|---|---|
| Progress.NoOrphanedWork | worker/consumer/consumer.go:56-124 | In every run without an orphaning step, each record in progress has a live process or a message due; so when nothing is live and nothing due, every record is ready or failed. No fault at all: failed lookups and "mark fetching" writes, terminal writes lost while attempts are left, cancelled, repeated and overlapping deliveries, other crashes, failed or repeated dead-letter writes, and commits past finished records |
| Progress.AttendedExactly | worker/consumer/consumer.go:56-124 | Run by run: every record in progress has somebody to finish it, all the way, if and only if no step is one of the seven faults of `Progress.Fault` and hits the last attendant of its record |
| Progress.HypothesesAreExact | worker/consumer/consumer.go:56-124 | Whichever kinds of fault are allowed: every run that comes to rest (every process over, every message settled) leaves every record ready or failed if and only if none of the seven is allowed and the retry limit is not negative |
| Progress.RetriesRepairALostWrite | worker/consumer/consumer.go:109-111 | For every positive retry limit, a run without a fault that loses the ready write of its first attempt and ends acknowledged with the record ready |
| Progress.LiveProcessesFinish | pkg/service/metadata_service_impl.go:69-134 | "Live" and "due" are earned: each step of a live process, short of a crash or a fault, brings the record one step closer to ready or failed, and the last one finishes it or is retried; delivering a due message does the same |
| Progress.AbandonedForever | pkg/service/metadata_service_impl.go:53-67 | Once nobody is at work on a record and all its messages are settled, it stays identical through any run, any traffic and any faults, barring another delivery of those messages; every later POST and GET for it answers "in progress" or a lookup error and queues nothing |
| Progress.PublishFailureIsPermanent | pkg/service/metadata_service_impl.go:156-170 | A publish that fails, or a crash just before it, by the only process acting on a URL puts the record in that state for good |
| Progress.EachFaultOrphans | pkg/service/metadata_service_impl.go:162-170 | For each of the seven faults, every retry limit of zero or more and every URL: a run with no other fault that comes to rest with the record abandoned |
| Progress.CrashOfSettledOrphans | pkg/kafka/consumer.go:102-167 | Such a run for a message delivered to two consumers: one makes the record ready and is acknowledged, the other marks it as fetching and dies |
| Progress.CrashBesideDeadLetterOrphans | pkg/kafka/consumer.go:144-156 | Such a run in which the second consumer dies while the first is about to write the dead letter |
| Progress.LostTerminalWritesOrphan | worker/consumer/consumer.go:78-111 | Such a run in which only terminal writes are lost: the message ends dead-lettered and acknowledged, its record in progress |
| Safety.AllRunsAreSound | pkg/service/metadata_service_impl.go:45-171 | In every run with every fault, crash, redelivery and skip: the store is the replay of its writes, every record is whole, and every process past its upsert still has its record |
| Safety.ResultsAreNeverTorn | pkg/db/mongo_repository.go:87-167 | If the URLs requested in a run do not collide, a record's fetch fields are all empty or all from one successful fetch of its own URL; ready implies the latter, pending the former with retry count 0 |
| Safety.NeverTornExactlyIfInjective | pkg/db/mongo_repository.go:174-178 | No run tears a result if and only if the hash is injective, or nothing ever fetches (async-only mode under a negative retry limit) |
| Safety.CollisionsTearResults | pkg/db/mongo_repository.go:129-166 | For any two URLs with one hash, inline or async-only, a run that stores the content of one in the record of the other |
| Safety.FetchedIsWhatWasFetched | pkg/service/metadata_service_impl.go:103-118 | The history of successful fetches used above holds a result for a URL if and only if a step of the run fetched it for a process of that URL |
| Safety.RetryCountIsConserved | pkg/db/mongo_repository.go:147-158 | In every run `retry_count` is the number of failed writes that reached the record since its last upsert |
| Safety.NoWriteMissesItsRecord | pkg/db/mongo_repository.go:128-166 | In every reachable state every status write of every process matches a record |
| Safety.EachWriteLeaves | pkg/service/metadata_service_impl.go:69-124 | In every reachable state, field by field, what each call of a request or delivery makes of its record if it takes effect: an upsert a fresh pending one, marking only the status, a failed fetch failed with one failure more, a successful one ready with that page; a call without effect changes nothing |
| Safety.RecordsPersist | pkg/db/mongo_repository.go:97-117 | Over any run a record is never deleted and its `created_at` never changes |
| Safety.CreatedByItsInsertion | pkg/service/metadata_service_impl.go:69-73 | In every run `created_at` is the time that the POST or GET which inserted the record chose |
| Http.StatusCodesKeepTheirPromise | api/handlers/metadata_post.go:66-81 | In every interleaving with every fault: 200 from either endpoint carries a ready record from one whole fetch, 202 from POST one in progress and 201 one that is not; a record response is never empty; each error has its own status, code and message; GET's 202 is the pending body; 400 and 409 never come from the service; GET never reaches its last branch |
| Http.AnswersWereStored | pkg/service/metadata_service_impl.go:53-67 | In every run a record that a request answers with is, field for field, the one the store held under the hash of its URL when it was read |
| Http.PostErrors | pkg/service/metadata_service_impl.go:48-134 | Which failed call of an uninterrupted POST is answered with which error, if and only if; and a record is reported new if and only if the POST found none or a failed one |
| Http.GetErrors | pkg/service/metadata_service_impl.go:141-168 | The same for GET |
| Http.CreatedIsTheLastWrite | api/handlers/metadata_post.go:71-81 | In every run: a POST that has stored its page, or queued its message, and reads its record back answers with the status that other processes wrote last under its hash since, or else its own; 201 if that is ready or failed, 202 otherwise |
| Http.WholeCallCreatedIsReady | pkg/service/metadata_service_impl.go:103-134 | An uninterrupted POST answers 201 if and only if it fetched inline for an absent or failed record and every necessary call succeeded; the 201 then carries that page, ready |
| Http.CreatedIsReadyExactlyWithoutFetches | api/handlers/metadata_post.go:77-78 | Over all runs of a configuration, 201 always carries a ready record if and only if nothing in it ever fetches |
| Http.InlineCreatedFailed | api/handlers/metadata_post.go:77-78 | A run in which a POST that fetched and stored its page answers 201 with a failed record |
| Http.AsyncPostAnswersCreated | pkg/service/metadata_service_impl.go:82-92 | In async-only mode, a run for either outcome of the fetch in which POST answers 201 with the record a delivery has already made ready or failed |
| Http.RacingFetches | pkg/service/metadata_service_impl.go:48-61 | A run in which a POST and a GET both find nothing and the URL is then fetched twice at once, for any retry limit of zero or more: whole requests are needed for ExactlyOneLiveJob |
| Http.MetadataPostHandler.ServeHTTP | api/handlers/metadata_post.go:49-82 | A bad body or URL gives 400 with its own code and touches neither store nor topic; otherwise the answer, the store and the queued URL are those of the service call |
| Http.MetadataGetHandler.ServeHTTP | api/handlers/metadata_get.go:42-78 | The same for GET, with the missing-parameter case |
| Content.StoredContentIsBounded | pkg/fetcher/http_fetcher.go:83-129 | In every run with the HTTP fetcher each record's size is its page's byte length, at most 5 MiB, zero with the feature off; and the record is blank or shows one whole response: every header key, every header value but those of Set-Cookie and Authorization, which are redacted, every cookie, its duration and time, and the body up to the limit, never of a response that broke off below it |
| Fetcher.HTTPFetcher.Fetch | pkg/fetcher/http_fetcher.go:56-111 | A fetch fails exactly when there is no response, or a page is wanted and the body breaks off before 5 MiB, each with its error text; otherwise the page is that of the response field by field: status, redacted headers, cookies, duration, time, and the body's first 5 MiB if wanted |
| Fetcher.OutcomeIs | worker/consumer/consumer.go:99-106 | The same for the result that gets stored |
| Fetcher.SanitizeHeaders | pkg/fetcher/http_fetcher.go:114-129 | Every header key is kept; exactly the sensitive values are replaced |
| Fetcher.ConvertCookies | worker/consumer/consumer.go:133-146 | Every cookie is copied field by field, in order |
| OneJob.ExactlyOneLiveJob | pkg/service/metadata_service_impl.go:53-67 | With whole requests, and deliveries that either never retry or run whole, a URL has exactly one live job while in progress and none otherwise, so it is never fetched by two deliveries at once |
| OneJob.ReadyIsFinal | worker/consumer/consumer.go:66-111 | Under the same conditions a ready record never changes again |
| OneJob.OneJobExactlyWithoutRetries | pkg/kafka/consumer.go:119-142 | Over all fault-free runs of whole requests and deliveries that interleave step by step: every record in progress has exactly one live job and every other none, if and only if the retry limit is zero |
| OneJob.RetriesBreakOneJob | pkg/kafka/consumer.go:119-142 | For every positive retry limit, a run whose every move is free of faults that fetches a URL twice at once, makes it ready and then failed |
| OneJob.MovesAreRuns | pkg/kafka/consumer.go:102-167 | Each whole request, delivery step and whole delivery is a run of the pipeline |
| ApiMap.CallsRefineTheMap | pkg/service/metadata_service_impl.go:45-171 | Under all faults, any sequence of whole POSTs and GETs is, answer by answer, a run of a map from URL hash to busy, available or broken with a queue beside it: an available entry answers 200 and a busy one 202 whenever the lookup succeeds, and neither changes |
| ApiMap.FaultlessCallsAreIdeal | pkg/service/metadata_service_impl.go:45-171 | Without faults the map, the queue and every status code are determined by the calls and by which pages could be fetched |
| ApiMap.CallsQueueOnce | pkg/service/metadata_service_impl.go:61-67 | As long as no delivery runs, no sequence of calls, with any faults, queues two messages for one hash; proved of the map alone |
| ApiMap.ReadyIsFrozenForTheApi | pkg/service/metadata_service_impl.go:53-59 | With no worker about, a ready record survives any sequence of API calls with any faults, field for field |
| Service.MetadataService.SubmitURL | pkg/service/metadata_service_impl.go:45-135 | The store, the result and the queued message after a POST, for every combination of replies: one message more on the chosen partition, keyed by the URL, asking for that URL from "api-post", exactly when one takes effect; partitions that carry the pipeline's topic still do |
| Service.MetadataService.GetMetadata | pkg/service/metadata_service_impl.go:138-171 | The same for GET, from "api-get" |
| Service.MetadataService.DispatchAsyncFetch | pkg/service/metadata_service_impl.go:173-200 | If the write takes effect, the chosen partition has one message more: its key and its request's URL are the URL, and version, source, time and request id are those of the call; every other partition is unchanged |
| Service.QueuesOneRequest | pkg/kafka/producer.go:61-83 | Such a message adds exactly its URL to the URLs requested over all partitions |
| Service.SubmitIsARun | pkg/service/metadata_service_impl.go:45-135 | What a POST does uninterrupted is what its pipeline steps do one after the other |
| Service.QueryIsARun | pkg/service/metadata_service_impl.go:138-171 | The same for GET |
| Delivery.ProcessIsARun | pkg/kafka/consumer.go:102-167 | The same for a whole delivery with its retries, cancellation and dead-letter write |
| Delivery.LoopIsARun | pkg/kafka/consumer.go:74-98 | What `Start` does to the store over any turns is a run of the pipeline with exactly one whole delivery, in order, for each well-formed message polled before the stop, and nothing else |
| Delivery.DeliveryLeavesInProgressExactly | pkg/kafka/consumer.go:102-167 | As a run of the pipeline, a whole delivery ends with its record in progress if and only if its writes were lost as Consumer.LeftInProgressExactly says, and settles its message if and only if the loop asks for a commit |
| Delivery.DeadLetteringCountsEveryAttempt | worker/consumer/consumer.go:78-95 | In any run in which nobody else writes the record, a delivery whose every fetch fails adds exactly `maxRetries + 1` to the retry count by the time it is dead-lettered, if its failed writes take effect |
| Worker.Worker.HandleMessage | worker/consumer/consumer.go:56-125 | The store after one attempt and the error it reports, for every combination of replies; what they are is stated by the next row and by Safety.EachWriteLeaves through Delivery.ProcessIsARun |
| Worker.ErrorsAreReported | worker/consumer/consumer.go:78-124 | The handler reports an error exactly when the fetch or the ready write fails, whatever the store holds, with the text of the refused or broken-off fetch, else of the lost write |
| Consumer.KafkaConsumer.ProcessMessage | pkg/kafka/consumer.go:102-167 | The commit decision, handler calls, waits, dead letters and store after the retry loop, for every trace |
| Consumer.KafkaConsumer.Start | pkg/kafka/consumer.go:74-98 | The store, dead letters and commits of the consume loop over any turns; what these are is stated by the two rows below and by Delivery.LoopIsARun |
| Consumer.KafkaConsumer.SendToDLT | pkg/kafka/consumer.go:180-206 | A dead letter has the original key and value, the error, the topic and both retry counts |
| Consumer.KafkaConsumer.CommitOffset | pkg/kafka/consumer.go:170-177 | An accepted commit is for the message's own partition and next offset; a refused one changes nothing |
| Consumer.RetriesMatchTrace | pkg/kafka/consumer.go:119-164 | With `f` failures before the first success: `min(f, maxRetries) + 1` handler calls and no other effect; commit exactly on success or a confirmed dead letter; at most one dead letter, only after `maxRetries + 1` failures, with the original key and value, the last error and equal counts |
| Consumer.WaitsMatchTrace | pkg/kafka/consumer.go:119-142 | With `f` failures before the first success the loop sleeps `min(f, maxRetries)` times, each time as long as the backoff of that retry, never less than before and at most 2 s; using up all `m` retries takes 100 m (m + 1) ms up to ten and 11 s plus 2 s each beyond |
| Consumer.AttemptsMade | pkg/kafka/consumer.go:119-166 | For every trace, cancellation included: which attempts are made, and store, waits, commit decision and dead letter when the last one ends |
| Consumer.CommitsUnlessLost | pkg/kafka/consumer.go:119-166 | The commit decision for all traces, cancellations included, as a condition on the trace |
| Consumer.LoopCommitsExactlySettled | pkg/kafka/consumer.go:85-96 | The commits of the loop equal, in order, one for each delivery before the loop stops that settled and whose commit was accepted |
| Consumer.LoopDeadLettersExactly | pkg/kafka/consumer.go:119-156 | The dead letters of the loop equal, in order, one for each turn before the stop whose every attempt fails with no wait cancelled and whose dead-letter write takes effect, with the original key and value, the last attempt's error and both retry counts |
| Consumer.LeftInProgressExactly | pkg/kafka/consumer.go:119-166 | For every trace, store and retry limit: a delivery leaves its record in progress if and only if no terminal write took effect from some effective mark on, or at all and the record was in progress before |
| AtLeastOnce.CommittedMeansSettled | pkg/kafka/consumer.go:74-98 | Over runs with crashes, restarts, rebalances, cancellations and failed commits, from committed offsets: if dead-letter writes fail only after cancellation, every message below a committed offset was malformed (exactly when so recorded), handled or dead-lettered |
| AtLeastOnce.NothingElseIsPassedOver | pkg/kafka/consumer.go:74-98 | With no hypothesis on the faults: an unsettled message below a committed offset was overtaken by its own session's later commit or lay there before a session's blind start |
| AtLeastOnce.SettledExactlyWithoutOvertaking | pkg/kafka/consumer.go:94-96 | From committed offsets, every message below a commit stays settled all along a run if and only if no commit overtakes a given-up message |
| AtLeastOnce.CancellationNeverOvertakes | pkg/kafka/consumer.go:132-154 | If dead-letter writes fail only in cancelled sessions, the code meets that condition itself |
| AtLeastOnce.CancelledGiveUpIsTheLast | pkg/kafka/consumer.go:78-83 | A cancelled session that gives a message up, for a wait cut short or a failed dead letter, never receives or commits again in any run |
| AtLeastOnce.CommitAfterCancellation | pkg/kafka/consumer.go:94-96 | A run in which a session cancelled while its handler runs still commits that message |
| AtLeastOnce.HistoriesAreEarned | pkg/kafka/consumer.go:103-165 | A message has a fate if and only if a step of the run settled it, and that fate is such a step's (handler success, confirmed dead letter, malformed bytes); it is overtaken if and only if some commit passed over it unsettled, and unseen if and only if some session started blind past it |
| AtLeastOnce.OutstandingIsRedelivered | pkg/kafka/consumer.go:40-49 | From committed offsets, a published message neither settled nor overtaken lies at or above its partition's committed offset, so every later assignment of that partition starts no later than at it |
| AtLeastOnce.CommittedIsTheHighest | pkg/kafka/consumer.go:170-177 | The committed offset of a partition is its first value or one past the furthest message whose commit was accepted, and never goes back |
| AtLeastOnce.ReceivesInOrder | pkg/kafka/consumer.go:85-96 | Until it is assigned partitions anew, a session receives from each of its partitions every message from its next offset on, in order and each once |
| AtLeastOnce.AssignedFromTheCommit | pkg/kafka/consumer.go:40-49 | When a session joins or is assigned partitions anew, that offset is the committed one, or the end of the partition if there is none |
| AtLeastOnce.CrashIsTheEnd | pkg/kafka/consumer.go:77-97 | A session that has crashed never receives or commits again |
| AtLeastOnce.LiveDltFailureIsOvertaken | pkg/kafka/consumer.go:152-154 | For every retry limit, a run in which a message whose dead-letter write failed is committed past, unsettled |
| AtLeastOnce.NegativeRetriesCommitUnhandled | pkg/kafka/consumer.go:119-166 | Under a negative limit a well-formed message is committed unhandled |
| AtLeastOnce.BlindStartSkips | pkg/kafka/consumer.go:40-49 | Without a committed offset a session commits past messages it never received, with nothing given up or overtaken |
| Sessions.LoopIsASession | pkg/kafka/consumer.go:74-98 | Over any turns a session can take, malformed messages, negative limits and cancellations included, the broker ends with exactly the commits `Start` made and each message with the fate its trace gives it, and the session has stopped if and only if `Start` has returned |
| Schedules.WholeSystemAgrees | pkg/kafka/consumer.go:74-167 | In every history of requests, handlers, publishes, receipts, retries, dead letters, commits, crashes, rebalances and cancellations, in which the broker does its part of each event and the pipeline exactly the steps named for it: each message a session has in hand is run by its own delivery at the session's phase and attempt, and a message is settled in the pipeline if and only if the broker's histories account for it |
| Schedules.AnswersCanBeGiven | pkg/kafka/consumer.go:102-164 | The pipeline is never in the way: for each receipt, handler return, wait, dead-letter write and crash of a session at work it has exactly one step to take, and that step is enabled; for any other event it has none |
| Schedules.HistoriesAreRuns | pkg/kafka/consumer.go:74-167 | In every such history the pipeline is where a run of its own leads and the broker where one of its own does |
| Schedules.NoOrphansInTheWholeSystem | worker/consumer/consumer.go:56-124 | In every such history without an orphaning event each record in progress has a live process or a message due; once no process is live and the broker accounts for every message, every record is ready or failed |
| RetryPolicy.BackoffIsExactUntilOverflow | pkg/kafka/consumer.go:242-248 | The wait fits in int64 nanoseconds exactly up to attempt 46116860184, is 200 ms per attempt capped at 2 s until then, and is negative at the next attempt |
| Mongo.MongoRepository.FindByURL | pkg/db/mongo_repository.go:69-83 | A lookup finds the record under the URL's hash, and absence is not an error |
| Mongo.MongoRepository.Upsert | pkg/db/mongo_repository.go:87-126 | The collection after an upsert, as the map whose fields Store.CreatedAtIsTheFirst, LastWriteWins, RetryCountCountsFailures and Mock.MockStandsInForMongo pin; no unique index ever refuses it |
| Mongo.MongoRepository.UpdateStatus | pkg/db/mongo_repository.go:129-167 | The collection after a status write, as a map; a missing record is silently ignored |
| Mongo.WritesMeetTheIndexes | pkg/db/mongo_repository.go:40-56 | Both unique indexes hold after every write, without assuming an injective hash |
| Mongo.WritesRefineTheMap | pkg/db/mongo_repository.go:97-164 | Updating the first matching document is updating the map entry of its hash |
| Store.HistoryKeepsIndex | pkg/db/mongo_repository.go:69-125 | After any writes every record sits under the hash of its URL, URLs are unique, and a lookup returns only a URL with the hash asked for |
| Store.CreatedAtIsFixed | pkg/db/mongo_repository.go:93-117 | `created_at` never changes after the first insert, whatever is written |
| Store.CreatedAtIsTheFirst | pkg/db/mongo_repository.go:93-95 | A record exists if and only if its key was upserted, and its `created_at` is the millisecond of the creation time given to the first such upsert, or of the write if none was given |
| Store.RetryCountCountsFailures | pkg/db/mongo_repository.go:147-158 | For any history of writes, the stored count is the failed writes since the last upsert on top of what that stored |
| Store.LastWriteWins | pkg/db/mongo_repository.go:133-164 | A record has the status written last and the millisecond of that write |
| Mock.MockStandsInForMongo | pkg/db/mock_repository.go:35-94 | Mock and Mongo answer alike (URL, status, error and every fetch field, fetch time to the millisecond) after every sequence of writes if and only if the hash is injective; and then equal to the nanosecond after writes whose fetch times are whole milliseconds |
| Mock.AgreeAfter | pkg/db/mock_repository.go:53-94 | For one sequence and one URL it is enough that no written URL collides with it |
| Mock.MockKeepsWhatWasUpserted | pkg/db/mock_repository.go:53-94 | Where the two differ: retry count, times, hash and version stay in the mock as the last upsert of the URL gave them |
| Mock.MockRepository.FindByURL | pkg/db/mock_repository.go:35-51 | The configured error or the stored record, and one more recorded call |
| Mock.MockRepository.Upsert | pkg/db/mock_repository.go:54-66 | The map afterwards, or the configured error and no change |
| Mock.MockRepository.UpdateStatus | pkg/db/mock_repository.go:69-94 | The map afterwards; a missing record is silently ignored |
| Producer.KafkaProducer.Publish | pkg/kafka/producer.go:61-83 | One message keyed by the URL is appended to the chosen partition and no other changes |
| Producer.MockProducer.Publish | pkg/kafka/producer.go:117-123 | The message is recorded, or the configured error returned and nothing recorded |
| RateBound.PromisesHoldExactlyIfItDoubles | pkg/middleware/ratelimit.go:81-93 | For every rate and every window from 0 up to the largest int64: sweeps are invisible, keys decide alone and the rate bound holds, each if and only if twice the window does not overflow int64 |
| RateBound.RateIsBounded | pkg/middleware/ratelimit.go:60-93 | For any traffic and sweeps, one key is admitted at most `(k+1) * rate - 1` times in any closed interval of `k` windows (a rate below one counts as one), if twice the window fits in int64 or nothing is swept |
| RateBound.RateBoundIsTight | pkg/middleware/ratelimit.go:60-79 | For every rate and every `k` up to the window's nanoseconds a trace reaches that bound |
| RateLimiter.CleanupIsInvisible | pkg/middleware/ratelimit.go:81-93 | Sweeps inserted anywhere, reading the clock entry by entry, change no decision, for any rate and any window whose double fits in int64 |
| RateLimiter.KeysAreIndependent | pkg/middleware/ratelimit.go:60-79 | The decisions for a key in any mixed trace are those of its requests alone, if twice the window fits in int64 or nothing is swept |
| RateLimiter.TokensCountAdmissions | pkg/middleware/ratelimit.go:65-78 | Tokens equal the rate less the admissions since the last reset, and lie in [0, rate - 1] for a rate of at least one |
| RateLimiter.RateLimiter.Allow | pkg/middleware/ratelimit.go:60-79 | The decision and the visitors afterwards, with both clock readings |
| RateLimiter.DecidedExactly | pkg/middleware/ratelimit.go:60-79 | Each decision of any trace: a request is admitted if and only if its key has not asked before, or more than one window has passed since the request that opened its last window, or it has asked fewer than `rate` times since then (sweeps as above) |
| RateLimiter.RefusalsLeaveNoTrace | pkg/middleware/ratelimit.go:72-75 | Leaving a refused request out of a trace changes no other decision |
| RateLimiter.RateLimiter.Cleanup | pkg/middleware/ratelimit.go:81-93 | One tick removes, in whatever order, exactly the entries older when visited than twice the window, if that fits in int64, and else than what int64 makes of it |

## Left out

- The drivers of Kafka, MongoDB, HTTP and DNS, and `Ping`, `Close` and `ConnectMongo`: a foreign call is a step with a chosen reply.
- Router, server, shutdown, health handlers, logging, metrics, tracing and recovery: no state the properties depend on.
- URL validation, private-address checks and redirects: an input of the handlers, or a refused exchange.
- The 429 response of the rate limiter's middleware, and the ticker that repeats the sweep: only the decision and one sweep are modelled.
- SHA-256 and JSON: the hash is a parameter; a message's bytes are malformed or decode to a request.
- Liveness of the broker: runs are finite; what is proved is safety and quiescence. A message that no commit has passed over counts as due, whenever it may come.
- Malformed messages and negative retry limits appear in `Broker.dfy` and `Sessions.dfy`; `Schedules.dfy` takes the topic to hold only what the producer wrote, and a limit of zero or more.
- The saturation of `time.Since` at the ends of int64: ages are exact.
- The time that passes in a wait that is cut short: only waits that run their course are recorded.
- Consumer.KafkaConsumer.Start: the endless loop is modelled over any finite list of turns.
- Go pointers shared with the mock's callers, `nil` as distinct from empty headers and cookies, document ids, and the mock's seeding helpers: records are values.
- Upserts that race to insert the same document: an update is one atomic step.
