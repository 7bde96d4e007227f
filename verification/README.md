# Verified model of the tech-trends backend

Dafny models of the backend's stateful parts, with proofs about all their runs. Nothing here runs
the program; the proofs are about the model, and the table below says which lines each one models.

| file | what it models |
|---|---|
| `RedisStore.dfy` | Redis as the application uses it: keys with expiry, a clock in milliseconds, atomic commands. A key is live at `now` exactly while `now < expireAt`. |
| `Retry.dfy` | the retry loop around AI calls and its backoff |
| `EmbeddingProtocol.dfy`, `EmbeddingSafety.dfy`, `EmbeddingStampede.dfy`, `EmbeddingWaiters.dfy`, `EmbeddingLiveness.dfy`, `EmbeddingWitnesses.dfy` | the embedding cache with its distributed lock, polling waiters and three permits, as a step relation over any number of calls and processes |
| `EmbeddingCode.dfy` | the same code in its own structure, proved to perform the protocol's steps |
| `Throttle.dfy` | the rate limiter's script and storage adapter, refining a fixed-window limiter |
| `Coalescing.dfy`, `CoalescingTheorems.dfy`, `QueryService.dfy` | coalesced loads over the article cache: the step relation, its theorems, and the service class that refines it |
| `Arrays.dfy`, `Calendar.dfy`, `Pipeline.dfy`, `PipelineQuota.dfy`, `PipelineRefinement.dfy`, `QuotaExactness.dfy` | the collection pipeline: batches, the Seoul day, one run, all histories of runs, what a run amounts to, and how far the daily target can be exceeded |
| `Ordering.dfy`, `Ranking.dfy`, `Listing.dfy` | ordered results and their pages, reciprocal rank fusion, filtered lists |
| `Wrappers.dfy`, `Numbers.dfy` | the option type, minimum and maximum |
| `Decimals.dfy`, `Notification.dfy`, `TrendsCache.dfy` | printed numbers, the Discord message, cache keys and times to live |

`dafny verify dfyconfig.toml` checks everything.

## How to read it

* Concurrent parts are state machines. `Step` is total, an action that is not enabled changes
  nothing, so every sequence of actions is a run and the theorems hold for all of them. Fields
  marked as history record what happened; no step depends on what they say.
* Where the source updates objects in place there is a class, and each of its methods is proved to
  compute a function or a step whose properties are then proved.
* Collaborators outside the program (the AI APIs, scrapers, the database's answers, clocks) are
  parameters: streams or functions that may answer anything.

## Where the code falls short of its promises

* README.md line 57 of the repository says that 50 simultaneous requests cause exactly one API call.
  The code does not read the cache again after it has won the lock, so this holds only along calm
  runs (`ExactlyOneRequest`); `SecondRequestWithoutLapse` is an undisturbed run with two requests.
  `FurtherRequestIff` says exactly when a query whose vector is cached can be requested again, and
  `SecondWinIff` when its lock can be won again.
* The lock lives 10 s while two 429 answers make its holder sleep 12 s: `BackoffOutlivesLock`, and
  `EmbeddingBackoffOutlastsTenSeconds` for the exact condition on all failures. No wrong vector results
  (`ValueIntegrity`), only another request.
* A waiter can return nothing just after the vector was cached: `WaiterMissesFreshVector`. It can if
  and only if the vector is not cached yet when the waiter reads the cache: `WaiterMissesIff`.
* The daily target is exceeded when saves are committed and reported as failed. With at most n such
  saves the exact bound is target + n (`DailyBoundIff`), so the target itself is kept in all
  histories if and only if there are none (`DailyTargetIff`, `DailyTargetKept`).
* A counter is sure to stay within limit+1, and the first request after a block sure to pass, only
  if blocks last at least one window: `CounterBoundIff`, `FirstRequestAfterBlock`.
* Articles found by both searches come first only for candidate limits up to 61, which the default
  of 50 satisfies: `BothBeatOneIff`.

## Model

| member | source | states |
|---|---|---|
| `EmbeddingProtocol.StepKeepsInv` | src/ai/ai.service.ts:262-317 | every step of every call, of time, eviction and crashes keeps the protocol invariant: lock tokens are own leases, an entry is kept until its lease is lost, cached vectors are genuine, permits are conserved |
| `EmbeddingProtocol.ReachableInv` | src/ai/ai.service.ts:262-357 | the invariant holds in every state any sequence of steps can reach |
| `EmbeddingSafety.MutualExclusion` | src/ai/ai.service.ts:276-312 | of two calls for one query in the locked section, one has lost its lease by lapse or eviction, and the earlier lease was lost before the later was granted |
| `EmbeddingSafety.LiveLockIsSafe` | src/redis/redis.service.ts:105-130 | a lock whose lease is not lost goes away only by its owner's own step or an eviction of that very key |
| `EmbeddingSafety.ReleaseRemovesOnlyOwnLock` | src/redis/redis.service.ts:117-130 | if a release, however late, makes a lock entry disappear, the entry was the releasing call's own lease |
| `EmbeddingSafety.ValueIntegrity` | src/ai/ai.service.ts:265-306 | every cached vector and every vector a call returns is non-empty and was answered by the API for exactly that normalized query, also with late writes of expired holders |
| `EmbeddingSafety.ProducedOnlyByApi` | src/ai/ai.service.ts:289-296 | a vector becomes known for a query only where an attempt of a lock holder for that query is answered |
| `EmbeddingSafety.PermitsAddUp` | src/ai/ai.service.ts:30 | free permits plus calls inside the semaphore are three for every process, at all times |
| `EmbeddingSafety.SectionEndsWithRelease` | src/ai/ai.service.ts:307-312 | a call leaves the locked section only by its release, by a release that fails, or with its process; after a release its lock entry is gone and its result is returned |
| `EmbeddingSafety.AnswerIsStoredAndReturned` | src/ai/ai.service.ts:289-306 | a non-empty answer returns the permit, is stored for its time to live and becomes the call's result |
| `EmbeddingStampede.StampedeBound` | src/ai/ai.service.ts:270-312 | while the vector stays cached, only calls whose missing cache read came before the write can win the lock or work, and further requests are bounded by the number of those that have not asked yet |
| `EmbeddingStampede.SecondWinIff` | src/ai/ai.service.ts:270-284 | with a free lock and a cached vector, the lock of that query can still be won if and only if some call has a missed cache read behind it and has not tried the lock |
| `EmbeddingStampede.FurtherRequestIff` | src/ai/ai.service.ts:270-294 | with a cached vector, a free lock and free permits, the query can still be sent to the API if and only if some call that missed the cache has yet to try the lock or waits for a permit |
| `EmbeddingStampede.SingleFlightStep` | src/ai/ai.service.ts:276-312 | a calm step keeps the single flight: at most one request, one vector, at most one call at work |
| `EmbeddingStampede.ExactlyOneRequest` | src/ai/ai.service.ts:270-357 | along any calm run a query is requested at most once, exactly once if any call has a vector, and all calls with a vector have the same one |
| `EmbeddingStampede.CoveredRun` | src/ai/ai.service.ts:298-312 | in runs without lapse or eviction of the query's entries every cache write of a holder stays covered by a cache entry until its time to live ends |
| `EmbeddingStampede.LockGoneMeansNobodyWorking` | src/ai/ai.service.ts:344-352 | what a waiter may conclude from a missing lock in a run without lapse: nobody works on the query, and a vector that a holder wrote is cached until its time to live |
| `EmbeddingWitnesses.SecondRequestWithoutLapse` | src/ai/ai.service.ts:270-304 | a run without faults, errors or any passing time in which one query is requested twice, for every query, vector and time to live |
| `EmbeddingWitnesses.BackoffOutlivesLock` | src/ai/ai.service.ts:276-312 | two 429 answers keep the holder asleep for 12 s; when its 10 s lock has lapsed a second call works on the same query |
| `EmbeddingWitnesses.WaiterMissesFreshVector` | src/ai/ai.service.ts:335-352 | a run from the start in which a waiter returns nothing although the vector is cached, because it reads the cache first and the lock second |
| `EmbeddingWaiters.ServedCallGetsVector` | src/ai/ai.service.ts:270-274 | a call whose cache read is still ahead while the vector is cached and stays so, and whose commands do not fail, never ends with nothing |
| `EmbeddingWaiters.WaiterMissesIff` | src/ai/ai.service.ts:335-352 | with a holder that has its answer and an unlost lease, a waiter about to poll can end with nothing although the vector is cached if and only if it is not cached at that read |
| `EmbeddingWaiters.WaiterHoldsOut` | src/ai/ai.service.ts:332-357 | while the lock is held and its own commands do not fail, a call that found it taken gives up with nothing no earlier than 5000 ms after it tried the lock |
| `EmbeddingLiveness.WorkIsBounded` | src/ai/ai.service.ts:262-357 | a run with N calls takes at most 77 N effective steps of calls, whatever fails |
| `EmbeddingLiveness.PermitHolderCanMove` | src/ai/ai.service.ts:289-294 | a permit holder waits only for the API or its own timer, never for a lock |
| `EmbeddingLiveness.SomeoneCanMove` | src/ai/ai.service.ts:262-317 | no deadlock: while a call is unfinished some call can move on |
| `EmbeddingLiveness.EveryCallCanFinish` | src/ai/ai.service.ts:262-317 | from every state that satisfies the invariant, answering dependencies bring every call to an end |
| `EmbeddingLiveness.WaitForCache` | src/ai/ai.service.ts:332-357 | the polling loop by itself: at most 25 polls and 5000 ms of sleep, a result only from the last cache read, an early end only on a missing lock |
| `EmbeddingCode.AiService.EmbedSearchQuery` | src/ai/ai.service.ts:262-317 | the structured code, try and finally included, among arbitrary other calls and throwing Redis commands, performs exactly the protocol's steps and returns exactly the result the protocol records, without throwing; unfinished only if no permit was free at any await it was watched for, however many |
| `EmbeddingCode.AiService.ProduceVector` | src/ai/ai.service.ts:286-306 | the body of the inner try ends about to release the lock it took, on every path on which it gets a permit; else it still waits and no permit is free |
| `EmbeddingCode.AiService.VectorEmbeddingWithAi` | src/ai/ai.service.ts:221-259 | the retry loop inside the semaphore performs the protocol's attempts; an empty answer counts as an error without a status |
| `EmbeddingCode.AiService.AfterFailure` | src/ai/ai.service.ts:65-103 | a failed attempt ends the loop with the permit returned, or sleeps and leads to the next attempt |
| `EmbeddingCode.AiService.WaitForCache` | src/ai/ai.service.ts:332-357 | the polling loop among other calls performs the protocol's polls and returns what the protocol records; how long it holds out is `EmbeddingWaiters.WaiterHoldsOut` |
| `EmbeddingCode.AiService.AnswerIsGenuine` | src/ai/ai.service.ts:262-306 | what the structured code returns is a non-empty vector of the API for this query |
| `Retry.ExtractRetryAfterMs` | src/ai/ai.service.ts:109-133 | a delay exists exactly if one of the two headers is positive, retry-after first, and is the least whole millisecond count covering it |
| `Retry.ExecuteWithRetry` | src/ai/ai.service.ts:59-106 | the loop is a run in the sense of IsRun, for every stream of attempts; `Retry.RefusalEndsTheRun` and `Retry.SleepsFollowTheError` say what such a run does |
| `Retry.RefusalEndsTheRun` | src/ai/ai.service.ts:66-90 | after a 4xx other than 429 or a too large 429 there is no further call, after any other failure there is one while the budget lasts, and a run that throws earlier ended on such an error |
| `Retry.SleepsFollowTheError` | src/ai/ai.service.ts:92-133 | each sleep is what the first positive header asks for, rounded up to milliseconds, or else the base delay times a power of 3 after a 429 and of 2 after other errors |
| `Retry.RunIsDetermined` | src/ai/ai.service.ts:62-104 | the stream of attempts determines outcome, calls and sleeps |
| `Retry.TotalBackoff` | src/ai/ai.service.ts:92-102 | at most maxRetries calls; without headers at most base*(3^(n-1)-1)/2 of sleep, and at least base*(2^(n-1)-1) if the budget is used up |
| `Retry.EmbeddingBackoffOutlastsTenSeconds` | src/ai/ai.service.ts:92-102 | an embedding call sleeps ten seconds or more if and only if its first failure is retryable and its delay is that long, or the second is retryable too and both delays together are, headers or not |
| `Retry.HeaderlessBackoffOutlastsTenSeconds` | src/ai/ai.service.ts:92-102 | without retry headers: if and only if the first two attempts fail retryably and the second failure is a 429 |
| `RedisStore.Redis.AcquireLock` | src/redis/redis.service.ts:105-114 | SET NX PX: wins exactly over a missing or expired key, other keys as before |
| `RedisStore.Redis.ReleaseLock` | src/redis/redis.service.ts:117-130 | compare and delete: removes the key exactly if it is live with this value, and nothing else |
| `RedisStore.Redis.GetCache` | src/redis/redis.service.ts:133-143 | the value of a live key, nothing for a missing or expired one |
| `RedisStore.Redis.SetCacheValue` | src/redis/redis.service.ts:146-156 | stores with an expiry for a positive number of seconds, else without one, other keys as before |
| `RedisStore.Redis.DelCache` | src/redis/redis.service.ts:159-162 | the key is gone, nothing else changes |
| `RedisStore.Redis.Exists` | src/redis/redis.service.ts:165-169 | true exactly for a live key |
| `RedisStore.Redis.RemainingMs` | src/redis/redis.service.ts:47-58 | PTTL: the remaining milliseconds, -1 without an expiry, -2 for a missing key |
| `RedisStore.Redis.SetKeepTtl` | src/redis/redis.service.ts:53 | INCR's write: a live key keeps its expiry, an expired one starts afresh without one |
| `RedisStore.Redis.SetExpiry` | src/redis/redis.service.ts:54-56 | PEXPIRE: a live key gets a new expiry, a missing one stays missing |
| `RedisStore.Redis.SetWithTtl` | src/redis/redis.service.ts:60 | SET PX: overwrites value and expiry |
| `Throttle.IncrementThrottle` | src/redis/redis.service.ts:46-65 | the script on the two Redis keys refines the fixed-window limiter: same new state, same reply, other keys untouched |
| `Throttle.TimeKeepsRepresentation` | src/redis/redis.service.ts:46-65 | passing time alone keeps the two keys in step with the limiter, expiry included |
| `Throttle.EvictionIsForgetting` | src/redis/redis.service.ts:46-65 | losing the counter or the block key to eviction is losing that window or that block and nothing more |
| `Throttle.CeilSeconds` | src/redis/redis-throttler.storage.ts:56-58 | whole seconds that just cover the milliseconds |
| `Throttle.RedisThrottlerStorage.Increment` | src/redis/redis-throttler.storage.ts:35-80 | with Redis up the limiter's decision and hits, with the least whole seconds covering the window and the block; with Redis down the request passes uncounted and failures are logged at least 30 s apart |
| `Throttle.AtMostLimitPerWindow` | src/redis/redis.service.ts:53-64 | at most limit requests are admitted in one life of the counter, in an open one only the rest |
| `Throttle.WindowBound` | src/redis/redis.service.ts:46-65 | at most (n+1)*limit requests pass in any half-open interval of n window lengths, wherever it starts |
| `Throttle.RepliesOfAWindow` | src/redis/redis.service.ts:53-64 | the n-th request of a window is answered with n hits and the rest of the window, and is blocked for the whole block exactly if n exceeds the limit |
| `Throttle.RepliesOfABlock` | src/redis/redis.service.ts:47-51 | requests during a block are answered as blocked for its remaining time and are not counted |
| `Throttle.BlockIsNotExtended` | src/redis/redis.service.ts:47-51 | any number of requests during a block change nothing and none of them passes |
| `Throttle.FirstRequestAfterBlock` | src/redis/redis.service.ts:47-64 | the first request after a block is admitted if and only if the counter has expired and the limit is not zero, which a block no shorter than the window guarantees |
| `Throttle.ShortBlockOverruns` | src/redis/redis.service.ts:53-62 | with a block shorter than the window a live counter can reach limit+2 |
| `Throttle.CounterBoundIff` | src/redis/redis.service.ts:53-62 | a live counter never exceeds limit+1 in any history if and only if blocks last at least one window |
| `Coalescing.StepKeepsInv` | src/trends/services/trends-query.service.ts:69-300 | every synchronous segment, answer and background write keeps the invariant: the map of loads is exact, all values come from the database in time |
| `Coalescing.ReachableInv` | src/trends/services/trends-query.service.ts:69-300 | the invariant holds in every state of every interleaving |
| `CoalescingTheorems.OneLoadPerKey` | src/trends/services/trends-query.service.ts:77-93 | per key at most one load is in flight and the map finds it; for details and related lists an entry exists exactly while a load is in flight |
| `CoalescingTheorems.JoinersShareOutcome` | src/trends/services/trends-query.service.ts:189-197 | the owner and all joiners of a load end with that load's outcome |
| `CoalescingTheorems.WorkIsBounded` | src/trends/services/trends-query.service.ts:182-292 | however steps interleave and whatever fails, each request causes at most eleven of them |
| `CoalescingTheorems.WaitsDescend` | src/trends/services/trends-query.service.ts:258-262 | every wait leads one level down, so waits cannot form a cycle |
| `CoalescingTheorems.SomeoneCanAdvance` | src/trends/services/trends-query.service.ts:182-292 | an unfinished request or load is never stuck: the one it finally waits for can go on |
| `CoalescingTheorems.QuiescentMapsAreEmpty` | src/trends/services/trends-query.service.ts:91-93 | when nothing can go on every request has an answer and all maps are empty, also after errors |
| `CoalescingTheorems.CountStaleness` | src/trends/services/trends-query.service.ts:69-94 | a count is the database's for this filter, from a load as old as its query, from the cache younger than 180 s plus its write delay |
| `CoalescingTheorems.RelatedStaleness` | src/trends/services/trends-query.service.ts:258-292 | a cached related list was ranked with an embedding of this article younger than the related TTL plus the detail TTL plus the delays of both loads and writes |
| `CoalescingTheorems.RelatedRowsAreTheDatabases` | src/trends/services/trends-query.service.ts:266-288 | a related list, from a load or from the cache, holds exactly the rows the database ranked for this article with that embedding, and is empty for an article without one |
| `CoalescingTheorems.AnswersAreTheDatabases` | src/trends/services/trends-query.service.ts:258-292 | the recorded answers are what the database answered to loads of that key, unchanged |
| `CoalescingTheorems.RankingReachesTheLoad` | src/trends/services/trends-query.service.ts:277-291 | a related load ends with exactly the rows of its ranking query, written to the cache, or with an error, its map entry dropped either way |
| `CoalescingTheorems.DetailReachesTheLoad` | src/trends/services/trends-query.service.ts:212-229 | a detail load ends with the row it read, with NotFound for a missing one, with an error for an error |
| `CoalescingTheorems.CountReachesTheLoad` | src/trends/services/trends-query.service.ts:81 | a count load settles with the number it read or with an error |
| `CoalescingTheorems.OutcomeReachesTheCall` | src/trends/services/trends-query.service.ts:83-93 | results and NotFound reach every waiting call as they are, errors of details and related lists as internal errors; the owner of a count writes it and cleans up |
| `CoalescingTheorems.NestedFailureReachesTheLoad` | src/trends/services/trends-query.service.ts:258-262 | a related load fails as its nested detail call failed, with nothing written |
| `CoalescingTheorems.MissingArticleIsNotFound` | src/trends/services/trends-query.service.ts:182-216 | a missing article is NotFound for the detail call that waits for the query |
| `CoalescingTheorems.MissingArticleHasNoRelated` | src/trends/services/trends-query.service.ts:258-264 | and for the related call whose load waits for that detail call |
| `CoalescingTheorems.CacheHitSkipsTheLoad` | src/trends/services/trends-query.service.ts:69-73 | a live cached value answers the call as it was written and no load starts |
| `CoalescingTheorems.FlushedIsCached` | src/trends/cache/trends-cache.service.ts:65-101 | a write that succeeds is readable for the time to live of its kind, one that fails changes nothing |
| `QueryService.TrendsQueryService.Enter` | src/trends/services/trends-query.service.ts:69-74 | a request enters with its cache lookup, exactly as the model's step |
| `QueryService.TrendsQueryService.Conclude` | src/trends/services/trends-query.service.ts:216-228 | a load ends: the cache write starts for a result only, the map entry goes in any case |
| `QueryService.TrendsQueryService.AfterLookup` | src/trends/services/trends-query.service.ts:69-85 | after the cache lookup the service answers, joins or starts and registers a load, exactly as the model's step |
| `QueryService.TrendsQueryService.AfterLoad` | src/trends/services/trends-query.service.ts:85-93 | after a load the caller takes its outcome, the owner of a count also writes the cache and drops the entry, exactly as the model's step |
| `QueryService.TrendsQueryService.Register` | src/trends/services/trends-query.service.ts:81-82 | sets one entry of one of the three maps and leaves all others |
| `QueryService.TrendsQueryService.Unregister` | src/trends/services/trends-query.service.ts:91-93 | drops one entry of one of the three maps and leaves all others |
| `QueryService.TrendsQueryService.AfterDetailQuery` | src/trends/services/trends-query.service.ts:212-229 | row, missing row and error of the detail query lead to the model's step, the entry dropped in each case |
| `QueryService.TrendsQueryService.AfterNestedDetail` | src/trends/services/trends-query.service.ts:258-275 | a related load goes on after its nested detail call as the model's step: fail alike, answer nothing, or rank |
| `QueryService.TrendsQueryService.AfterRanking` | src/trends/services/trends-query.service.ts:277-291 | rows and errors of the ranking query lead to the model's step, whose meaning is `CoalescingTheorems.RankingReachesTheLoad` |
| `Arrays.ChunkArray` | src/common/utils/array.util.ts:1-7 | batch i holds the elements from i times size on, at most size of them, and the batches reach the end and no further |
| `Arrays.ChunksFlatten` | src/common/utils/array.util.ts:1-7 | the batches put together are the list |
| `Arrays.StartIsProduct` | src/common/utils/array.util.ts:3-5 | batch i starts at i times size |
| `Calendar.Date.SetToUtcMidnight` | src/common/utils/time.util.ts:20 | back to the last UTC midnight, also before 1970 |
| `Calendar.GetTodayStartUtc` | src/common/utils/time.util.ts:16-22 | the start of the current Seoul day: not after now, less than a day before, on the same day |
| `Calendar.TodayStartIsUnique` | src/common/utils/time.util.ts:16-22 | only one instant is a Seoul midnight within the day before now |
| `Calendar.SinceTodayIff` | src/trends/repositories/tech-trend.repository.ts:434-441 | an instant is not before the start of today exactly if its Seoul day is not before today |
| `Pipeline.TechTrendRepository.CountSavedSince` | src/trends/repositories/tech-trend.repository.ts:434-441 | the number of this source's rows not older than the instant |
| `Pipeline.TechTrendRepository.FindExistingSourceIds` | src/trends/repositories/tech-trend.repository.ts:414-431 | exactly those of the given ids that the source already has |
| `Pipeline.TechTrendRepository.SaveTrend` | src/trends/repositories/tech-trend.repository.ts:468-470 | an insert guarded by the unique key; it may be refused, or committed without the caller hearing of it |
| `Pipeline.TrendsPipelineService.FetchBatchDetailsMap` | src/trends/services/trends-pipeline.service.ts:267-289 | the details loop computes the map of ids whose details have content, failures skipped |
| `Pipeline.TrendsPipelineService.SummarizeArticles` | src/trends/services/trends-pipeline.service.ts:330-385 | the summary loop stops at the limit and skips failures |
| `Pipeline.TrendsPipelineService.SaveTrends` | src/trends/services/trends-pipeline.service.ts:442-486 | the save loop counts exactly the acknowledged saves and goes on after failures |
| `Pipeline.TrendsPipelineService.ProcessBatch` | src/trends/services/trends-pipeline.service.ts:182-236 | one batch, with its early exits and its two ways to throw, is the function Batch |
| `Pipeline.TrendsPipelineService.ProcessBatches` | src/trends/services/trends-pipeline.service.ts:138-163 | the batch loop with its quota check is the function Collect |
| `Pipeline.TrendsPipelineService.ProcessSource` | src/trends/services/trends-pipeline.service.ts:99-179 | the whole run is the function Run, in its rows, in whether it throws and in what it reports; `PipelineRefinement.SuccessIsWholeRun` and `PipelineQuota.RunIsTruthful` say what that is |
| `PipelineQuota.BatchGrows` | src/trends/services/trends-pipeline.service.ts:146-160 | a batch saves no more than the quota it is given, whatever the collaborators answer |
| `PipelineQuota.ThrowingBatchSavesNothing` | src/trends/services/trends-pipeline.service.ts:196-235 | a batch that throws, in the filter or for its embeddings, has saved nothing |
| `PipelineQuota.RunGrows` | src/trends/services/trends-pipeline.service.ts:101-163 | a run only appends rows of its source, at most target minus baseline plus its lost acknowledgements |
| `PipelineQuota.BaselineIsToday` | src/trends/services/trends-pipeline.service.ts:101-104 | the baseline counts exactly the source's rows of the current Seoul day |
| `PipelineQuota.JobGrows` | src/trends/services/trends-pipeline.service.ts:101-163 | wherever a run stops it has appended no more rows than the target leaves plus those of them it was told had failed |
| `PipelineQuota.DailyQuota` | src/trends/services/trends-pipeline.service.ts:101-163 | after any history of runs, retries and crashes, across midnight too, a source has on any Seoul day at most target rows plus the commits, up to where each run stopped, whose acknowledgement was lost |
| `PipelineQuota.DailyTargetKept` | src/trends/services/trends-pipeline.service.ts:101-163 | if the database never reports a failure for a committed save, the daily target itself is never exceeded |
| `PipelineQuota.NoArticleTwice` | src/trends/repositories/tech-trend.repository.ts:414-431 | after any history of runs no article of a source is stored twice |
| `PipelineQuota.SaveFollowsReply` | src/trends/services/trends-pipeline.service.ts:449-481 | a save adds a row unless the source has it or the database rejects it, and counts it exactly if it is acknowledged |
| `PipelineQuota.RefusedRunStoresNothing` | src/trends/services/trends-pipeline.service.ts:442-486 | a run whose saves are all rejected stores nothing and reports nothing |
| `PipelineQuota.RunIsTruthful` | src/trends/services/trends-pipeline.service.ts:126-179 | what a run reports as saved are the ids of the rows it has stored and heard of, in order |
| `PipelineRefinement.BatchByJudge` | src/trends/services/trends-pipeline.service.ts:182-236 | with fixed outcomes per article a batch offers the database exactly its first acceptable articles up to the quota |
| `PipelineRefinement.RunSavesFirst` | src/trends/services/trends-pipeline.service.ts:138-166 | with fixed outcomes and succeeding saves a run stores the first acceptable new articles in order, as many as the target leaves, whatever the batch size |
| `PipelineRefinement.KeptByRetry` | src/trends/services/trends-pipeline.service.ts:239-264 | after the first m acceptable articles are stored, what a retry finds acceptable and new is the rest of them |
| `PipelineRefinement.RetryCompletes` | src/trends/services/trends-pipeline.service.ts:99-179 | a retry, wherever earlier runs stopped, completes what the first would have stored |
| `PipelineRefinement.BatchOrThrow` | src/trends/services/trends-pipeline.service.ts:196-235 | a batch in which the filter or the embedding may throw is the batch without that, or throws and has saved nothing |
| `PipelineRefinement.FailingRunIsPrefix` | src/trends/services/trends-pipeline.service.ts:99-179 | whatever throws, a run has saved a prefix of what it would have saved otherwise |
| `PipelineRefinement.SuccessIsWholeRun` | src/trends/services/trends-pipeline.service.ts:170-173 | no failure is swallowed: a run that does not throw is in rows and result the run it would have been had nothing failed |
| `PipelineRefinement.CrashResume` | src/trends/services/trends-pipeline.service.ts:99-179 | any number of runs stopped after any prefix of saves, by crashes or by exceptions of any call, and then one complete retry leave the rows of one uninterrupted run |
| `QuotaExactness.LostAckExceedsTarget` | src/trends/services/trends-pipeline.service.ts:449-481 | for every target, batch size and n one run with exactly n lost acknowledgements that leaves target + n rows of its source on one day |
| `QuotaExactness.DailyBoundIff` | src/trends/services/trends-pipeline.service.ts:101-163 | all histories with at most n lost acknowledgements of a source stay within a daily bound if and only if the bound is at least target + n |
| `QuotaExactness.DailyTargetIff` | src/trends/services/trends-pipeline.service.ts:101-163 | all of them keep the target itself if and only if n is 0 |
| `Ranking.Share` | src/trends/repositories/tech-trend.repository.ts:365-366 | every rank contributes a positive share |
| `Ranking.ShareFalls` | src/trends/repositories/tech-trend.repository.ts:365-366 | a worse rank contributes strictly less |
| `Ranking.IndexOf` | src/trends/repositories/tech-trend.repository.ts:331-337 | the first position of an id in a list |
| `Ranking.JoinedRows` | src/trends/repositories/tech-trend.repository.ts:363-369 | the full outer join has every id of either list once; its size is the sum of both minus the ids in both |
| `Ranking.HybridResult` | src/trends/repositories/tech-trend.repository.ts:360-388 | the result holds every candidate once in the only strictly ordered way; the count query returns its length, at most twice the candidate limit |
| `Ranking.BothBeatOneIff` | src/trends/repositories/tech-trend.repository.ts:361-376 | articles found by both searches rank strictly above those found by one, for all candidate lists, if and only if the limit is at most 61 |
| `Ranking.CrowdedOut` | src/trends/repositories/tech-trend.repository.ts:361-376 | for every larger limit, lists of positive ids in which rank 1 of one search is not beaten by the last rank of both |
| `Ranking.PromotionNeverHurts` | src/trends/repositories/tech-trend.repository.ts:361-376 | moving up, or entering, one candidate list with all else fixed never puts anyone new ahead of an article |
| `Ranking.AheadIsIndex` | src/trends/repositories/tech-trend.repository.ts:375 | an article's index in the result is the number of candidates ahead of it |
| `Ranking.ResultOrder` | src/trends/repositories/tech-trend.repository.ts:375 | along the result scores fall; of equal scores the later created comes first, of equal dates the larger id |
| `Ranking.ScoreByRanks` | src/trends/repositories/tech-trend.repository.ts:364-366 | an article's score is 1/(60 + rank) for each list it is in, ranks counted from 1 |
| `Ranking.HybridPages` | src/trends/repositories/tech-trend.repository.ts:376-388 | the pages up to the totalPages of the count are the whole result |
| `Ordering.SortedIsUnique` | src/trends/repositories/tech-trend.repository.ts:182 | in a strict order only one sequence of given rows is sorted, whatever algorithm the database uses |
| `Ordering.OrderByIsSorted` | src/trends/repositories/tech-trend.repository.ts:182 | ordering keeps every row once |
| `Ordering.TotalPages` | src/trends/services/trends-query.service.ts:145-153 | the smallest number of pages that covers the total |
| `Ordering.PagesPartition` | src/trends/services/trends-query.service.ts:145-153 | pages 1 to totalPages put together are the result, none of them empty or too long, later ones empty |
| `Ordering.NoRowOnTwoPages` | src/trends/repositories/tech-trend.repository.ts:183-184 | no row appears on two pages |
| `Listing.SelectQueryBuilder.OrderBy` | src/trends/repositories/tech-trend.repository.ts:144-178 | orderBy starts a new list of terms |
| `Listing.SelectQueryBuilder.AndWhere` | src/trends/repositories/tech-trend.repository.ts:197-206 | adds one condition and keeps the others |
| `Listing.SelectQueryBuilder.AddOrderBy` | src/trends/repositories/tech-trend.repository.ts:182 | appends a term after the earlier ones |
| `Listing.SelectQueryBuilder.SkipTake` | src/trends/repositories/tech-trend.repository.ts:183-184 | sets the slice to return |
| `Listing.ApplyListFilters` | src/trends/repositories/tech-trend.repository.ts:197-206 | appends the filters that change the count |
| `Listing.ListTrends` | src/trends/repositories/tech-trend.repository.ts:121-187 | the page of the whole filtered and ordered list, for every sort option; `Listing.CreationOrder`, `Listing.MiningOrder` and `Listing.PopularityOrder` say what the orders are |
| `Listing.CountTrends` | src/trends/repositories/tech-trend.repository.ts:190-194 | the number of rows the filters leave |
| `Listing.LessIsTotal` | src/trends/repositories/tech-trend.repository.ts:182 | terms that include the id decide between any two rows, nulls or not |
| `Listing.ListAndCountAgree` | src/trends/repositories/tech-trend.repository.ts:121-206 | for every filter and sort option the list is unique, has exactly the matching rows, its length is the count, and its pages are the list |
| `Listing.FilterMeaning` | src/trends/repositories/tech-trend.repository.ts:197-206 | a row passes exactly if its source is wanted and, when only new ones are, it was mined today |
| `Listing.PopularityOrder` | src/trends/repositories/tech-trend.repository.ts:155-172 | by likes, views or comments: counts fall, articles without one come last, ties go by date and then id |
| `Listing.CreationOrder` | src/trends/repositories/tech-trend.repository.ts:173-182 | by creation date, newest first by default or oldest first, equal dates by falling id |
| `Listing.MiningOrder` | src/trends/repositories/tech-trend.repository.ts:143-154 | by time of mining and then creation date, both in the same direction, ties by falling id |
| `Notification.SafeTitleIsReversible` | src/trends/processors/trends-queue.events.ts:68-75 | the seven replacements equal one pass of escaping, and unescaping gives back the title with its line breaks collapsed |
| `Notification.LineReadsBack` | src/trends/processors/trends-queue.events.ts:65-77 | whatever the title, line i reads back as number i+1, the title with its line breaks collapsed, and the address of the article's page |
| `Notification.MessageNamesItsParts` | src/trends/processors/trends-queue.events.ts:61-82 | the header determines the source and the last line the number of articles left out |
| `Notification.PrintedNumbersDiffer` | src/trends/processors/trends-queue.events.ts:77 | different numbers are printed differently |
| `Notification.CollapseRemovesBreaks` | src/trends/processors/trends-queue.events.ts:69 | no line break is left, and a title without any stays as it is |
| `Notification.ListArticles` | src/trends/processors/trends-queue.events.ts:63-85 | the loop lists the longest prefix that fits 1800 units, then the number of those left out |
| `Notification.BuildUserMessage` | src/trends/processors/trends-queue.events.ts:58-86 | the user message, empty without a source or articles |
| `Notification.LongestIsUnique` | src/trends/processors/trends-queue.events.ts:79-82 | all shorter prefixes fit, all longer ones exceed the budget, so the longest is determined |
| `Notification.SendNotification` | src/trends/processors/trends-queue.events.ts:117-135 | posts the message unchanged up to 2000 units, else its first 1950 and a note, never more than 2000 |
| `Notification.UserMessageIsNeverCut` | src/trends/processors/trends-queue.events.ts:58-86 | for the three registered sources the user message stays below 2000 units, whatever the articles |
| `Decimals.IntegerIsInjective` | src/trends/cache/trends-cache.constants.ts:13-14 | different numbers print differently |
| `TrendsCache.KeysAreInjective` | src/trends/cache/trends-cache.constants.ts:12-15 | no two cached values share a Redis key, whatever ids, limits and source names |
| `TrendsCache.Setting` | src/trends/cache/trends-cache.service.ts:28-38 | a non-zero setting is kept, a missing, non-numeric or zero one falls back |
| `TrendsCache.TrendsCacheService.constructor` | src/trends/cache/trends-cache.service.ts:24-39 | each time to live is its setting or its default |
| `TrendsCache.TrendsCacheService.DefaultTimesToLive` | src/trends/cache/trends-cache.constants.ts:6-9 | without settings: a day for the source list, 15 minutes for a detail, 5 for a related list, 3 for a count |
| `TrendsCache.TrendsCacheService.Get` | src/trends/cache/trends-cache.service.ts:42-93 | reads the item's own key |
| `TrendsCache.TrendsCacheService.Set` | src/trends/cache/trends-cache.service.ts:48-101 | readable for exactly its time to live, every other item as before |
| `TrendsCache.TrendsCacheService.InvalidateSources` | src/trends/cache/trends-cache.service.ts:56-58 | forgets the source list and nothing else |

## Left out

- Scrapers, AI prompts and AI clients, HTTP and JSON: network input and output; their answers are arbitrary parameters of the model.
- `normalizeKeyword`, `sanitizeAndFilter` and the blank test: regular expressions; a call of the protocol carries its normalized query and whether it was blank.
- Lock values: `randomUUID` is taken as never repeating, so a lease's index is its token.
- Eviction: any key at any step in the embedding protocol, a lost key in the limiter; the coalescing model lets a cache lookup fail instead, which has the same effect on a caller.
- The order in which the event loop resumes waiting calls: every order is allowed.
- The embedding protocol counts a crash per process and does not model requests that are cancelled by their client.
- `EmbeddingCode.AiService.EmbedSearchQuery`: a call in want of a permit is followed for any chosen number of awaits and then reported as still waiting, because whether it ever gets one depends on other calls; `EmbeddingLiveness.SomeoneCanMove` shows that they can go on.
- `Coalescing.StepKeepsInv`: the service's three maps are one map keyed by the kind of load; `QueryService` has the three maps and is proved to agree.
- Freshness of the source list and `getUniqueSources`: a late background write can restore an old list after `invalidateSources`, so there is no bound to prove.
- The count and the page of one list request are two queries; the page theorems are about one snapshot.
- `Ranking.HybridResult`: the candidate queries have a LIMIT without an outer ORDER BY; the model reads them as the top of the ranking, which is what their comment intends. Scores are exact rationals, without the database's rounding of decimals, and ranks and distances are given.
- `searchKeyword`: the same slicing and counting over a relevance order that the database computes; it would repeat the list theorems.
- BullMQ: one worker runs one job after another, so runs are serial; `dispatchAllScrapersToQueue` and job ids are not modelled, any number of runs may follow each other.
- `PipelineQuota.DailyQuota`: assumes that the clock does not run backwards and that the database's and the program's clocks agree.
- `PipelineRefinement.RunSavesFirst`: assumes distinct article ids and that link_url does not collide with a stored row; any collision is a rejected save, which the other pipeline theorems allow.
- Row columns that the pipeline copies through unchanged (counts, dates, tags): not part of the model.
- Retry-After as an HTTP date (section 10.2.3 of RFC 9110): only the number of seconds is modelled, as an optional positive delay.
- The admin message, the frontend, NestJS wiring, DTO validation, logging, migrations and deployment files.
