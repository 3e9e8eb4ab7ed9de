# Verification of the live-danmaku server

A Dafny model of the parts of the live-chat ("danmaku") server, its web client and its insight worker in
which a mistake would lose, repeat or misplace something, with proofs of what they keep. The code modelled
is version 10 (`v10/`) and the insight worker of version 11 (`v11/insight/`).

| module | what it models |
|---|---|
| `MessageStore`, `Records` | the MySQL table with its unique message id, the batch written to it, and how a Kafka record is classified |
| `ClaimProtocol` | the consumer-group protocol of one partition: any number of claims at once, crashes, rebalances, lagging commits, inserts that fail or only seem to fail |
| `ClaimHandler` | the consumer itself, as a program that provably never leaves that protocol |
| `TokenBuckets`, `ArrivalCurve` | the sharded, lazily refilled, evicting rate limiter, and what it lets through |
| `TrafficController` | connection admission and the two limiters in front of danmaku and likes |
| `CircuitBreaker`, `BreakerRuns` | the breaker's atomic steps as code, and every interleaving of them |
| `IngressPipeline` | accepted packets on their way through the bounded queues to Redis or to local clients |
| `SnapshotRuns`, `SnapshotPool` | rooms, recycled client snapshots and broadcast jobs: every interleaving of the goroutines over one memory of arrays, and the code over real arrays |
| `LikeAggregation` | likes between memory, the statistics tick and Redis |
| `LaneScheduler` | the lanes on which the web client shows danmaku |
| `ReconnectSocket` | the reconnecting socket of the web client |
| `InsightProcessor`, `InsightPool` | one analysed window, and the worker pool that processes all due ones |
| `LatencyHistogram` | the percentiles the benchmark prints |

Code that changes fields is a class whose methods have the code's branches. Where goroutines, claims or
browser events interleave, there is also a step function on values, and the results are about every sequence of
steps. The methods are proved to make exactly those steps: what a method does undisturbed is a list of steps,
and others may come in between any two of them. The ingress pipeline and the worker pool, which are nothing but
interleaving, are such steps only. The outside world (Kafka, MySQL, Redis, the
browser, timers) is an argument: what it answers is arbitrary, within these contracts:

- an insert is one atomic insert-if-absent over `message_id`; it may report failure after it has committed;
- marking an offset only ever raises it; a commit writes any offset up to what its claim has marked; a new claim
  starts at the committed offset;
- a dead letter may have been stored although its publication was reported as failed;
- the clock does not go back (limiter, breaker, lanes); tokens and times are exact numbers.

Four results are about what the code does not do, each with the exact condition. With Redis, likes of a room
that has no client here when a statistics tick counts the rooms are drained and dropped by that tick
(`LikesAreLostIff`, `LikeAndLeaveIsLost`). A `reconnect` called after the hook was unmounted opens a socket that
nothing closes (`WiredIff`, `StrayReconnectLeaks`). A user of a room shares the limiter's bucket with somebody
else exactly if the room id or the user id holds a NUL byte (`UserKeyIsSharedIff`, `PairsMeetIff`). And
evicting idle buckets is invisible, and the arrival curve exact, only if an idle bucket has the time to fill up
(`EvictionIsInvisibleIff`, `CurveHoldsIff`).

Check it with `dafny verify dfyconfig.toml`.

## Model

| member | source | states |
|---|---|---|
| ClaimProtocol.EffectivelyOnce | v10/internal/consumer/handler.go:150-212 | in every run with any claims, crashes, rebalances, lagging commits, failed or falsely failed inserts, for some log prefix that covers every committed and marked offset: an id has a row exactly if a valid record of the prefix carries it, and the row is that of the first such record |
| ClaimProtocol.AcknowledgedIsSettled | v10/internal/consumer/handler.go:164-185 | in every state, also between two marks of a batch, every record below a committed or marked offset is stored, dead-lettered or unsupported; a poison record is dead-lettered only after all before it are settled; no claim holds more than a batch |
| ClaimProtocol.DrainedLogIsStored | v10/internal/consumer/handler.go:307-309 | only rows that fit the schema are stored, under their own id; when the whole log is committed or marked the table is the first-wins table of the whole log |
| ClaimProtocol.StepKeepsInv | v10/internal/consumer/handler.go:349-399 | no step of any claim or of the environment loses or rewrites a row or a dead letter, and the stored prefix never shrinks |
| ClaimProtocol.SaveExtends | v10/internal/consumer/handler.go:356-360 | saving a segment that starts inside the stored prefix stores exactly the longer prefix, even if other claims have already saved part of it |
| ClaimProtocol.BooksBalance | v10/internal/consumer/handler.go:369-373 | saved is inserted plus duplicates with none ever negative, so the unsigned subtraction cannot wrap; every parsed record is saved or pending; every passed offset is counted once as saved, skipped or dead-lettered |
| ClaimProtocol.BooksAreTrue | v10/internal/consumer/handler.go:369-373 | of the records a claim has passed the valid ones are counted as saved, the unsupported ones as skipped and the poison ones as dead-lettered; batches are the confirmed inserts, and inserted rows those they reported |
| ClaimProtocol.OwnersAreClaims | v10/internal/consumer/handler.go:147-150 | the state of a claim in the shared world is what its own history alone leads to |
| ClaimProtocol.ClaimsCanRun | v10/internal/consumer/handler.go:150-212 | every legal history of a claim from the committed offset can be carried out in any state of any run, to the same end |
| ClaimHandler.Handler.ConsumeClaim | v10/internal/consumer/handler.go:150-212 | whatever the environment answers and wherever it kills the process: the calls made are a history the protocol allows and no record is skipped; every turn leaves pending exactly what it should, which is nothing after a tick, an unsupported or poison record, or a full batch, so whatever was pending at a tick is marked before the claim goes on; the claim ends only when the stream or the session does, when recovery is interrupted, when a poison record cannot be put away, or when the last flush has used up its attempts; a claim that ends well has marked all it received; and the counters are those of the history |
| ClaimHandler.Handler.HandleRecord | v10/internal/consumer/handler.go:164-196 | pending records are flushed before an unsupported or poison record is dealt with; a valid record stays pending, without any call, until the batch is full, and then nothing is pending; it fails only when recovery was interrupted or a poison record could not be put away |
| ClaimHandler.Handler.HandleTick | v10/internal/consumer/handler.go:198-206 | after a tick that goes well nothing is pending and all that was is marked; it fails only when recovery was interrupted |
| ClaimHandler.Handler.PassOver | v10/internal/consumer/handler.go:174-185 | an unsupported packet is marked without asking anybody; a poison record is marked exactly if there is a publisher and it acknowledged |
| ClaimHandler.Handler.FlushPending | v10/internal/consumer/handler.go:351-399 | at most maxRetries inserts of the unique batch, and every timer that runs out between them is followed by another; marks follow a confirmed insert only, one for each pending record in order; it gives up only after maxRetries inserts or when its context is done, and then marks nothing |
| ClaimHandler.Handler.FlushWithRecovery | v10/internal/consumer/handler.go:237-269 | the same with recovery: the partition is paused with growing waits, each after a full round of inserts in vain and each, unless the session ends, followed by another round, until the database answers or the session ends; the pause is counted once and undone on every path |
| ClaimHandler.Handler.PublishDeadLetter | v10/internal/consumer/handler.go:313-337 | it fails exactly if there is no publisher or the publisher does not acknowledge; then the failure is counted and nothing is marked |
| ClaimHandler.Handler.FlushBeforeClaimEnds | v10/internal/consumer/handler.go:339-347 | the last flush of a claim makes an insert if anything is pending, marks all or nothing, and gives up only after maxRetries inserts or when its time is up |
| ClaimHandler.Handler.constructor | v10/internal/consumer/handler.go:98-135 | settings that are not positive get 500 records, 3 attempts and waits of 1 to 30 s, all others are kept, and the largest backoff is at least the smallest |
| ClaimHandler.UniqueBatch | v10/internal/consumer/handler.go:401-412 | the loop over pending messages with its set of seen ids yields `Unique` of their rows |
| MessageStore.UniqueKeepsFirsts | v10/internal/consumer/handler.go:401-412 | the batch has pairwise different ids, exactly the pending ids, and of each id the first pending row |
| MessageStore.UniqueRefines | v10/internal/consumer/handler.go:356-360 | inserting the unique batch leaves the table that inserting every pending row one by one would |
| MessageStore.FirstWins | v10/internal/repo/message_repo.go:21-33 | insert-if-absent gives an absent id the first row that carries it |
| ClaimHandler.BackoffIsCappedExponential | v10/internal/consumer/handler.go:271-280 | the n-th wait is the smallest backoff doubled n times, capped at the largest |
| Records.Classify | v10/internal/consumer/handler.go:282-311 | each record is unsupported, poison or valid by the code's checks in their order, and a valid row fits the schema |
| Records.ParsedIff | v10/internal/consumer/handler.go:282-311 | a record is valid exactly if it is a packet of kind 101 whose danmaku decodes, has message, room and user ids with text, and fits the columns, and then that danmaku is the row; unsupported exactly if it is a packet of another kind; poison otherwise |
| Records.StoredIds | v10/internal/repo/message_repo.go:19-33 | after a log prefix the ids in the table are exactly those its valid records carry |
| TokenBuckets.AnswersAgree | v10/internal/ratelimit/controller.go:218-262 | for every hash function and every run, the sharded, evicting limiter answers each call as one never-evicted bucket per key would, if an idle bucket has the time to fill up |
| ArrivalCurve.EvictionIsInvisibleIff | v10/internal/ratelimit/controller.go:228-235 | the two agree on all runs if and only if idleTTL times PerSecond reaches Burst (or the limiter is off) |
| ArrivalCurve.ArrivalCurve | v10/internal/ratelimit/controller.go:237-261 | a call is allowed if and only if, from every earlier call on its key on, the allowed calls and one more fit the burst plus the refill since |
| ArrivalCurve.CurveHoldsIff | v10/internal/ratelimit/controller.go:228-261 | the curve holds on all runs if and only if idleTTL times PerSecond reaches Burst |
| ArrivalCurve.IdealCurve | v10/internal/ratelimit/controller.go:247-261 | buckets that are never evicted obey the curve whatever the rate |
| ArrivalCurve.WindowBound | v10/internal/ratelimit/controller.go:247-261 | every window of calls lets each key pass at most the burst plus the refill over the window |
| ArrivalCurve.OffIff | v10/internal/ratelimit/controller.go:218-221 | every run of calls is allowed if and only if PerSecond or Burst is not positive, and then no bucket is ever made |
| TokenBuckets.KeyedLimiter.Allow | v10/internal/ratelimit/controller.go:218-262 | the owning shard takes one cleanup, refill and withdrawal, and no other shard changes |
| TokenBuckets.KeyedLimiter.RemoveIdle | v10/internal/ratelimit/controller.go:229-233 | the cleanup loop removes exactly the buckets idle for idleTTL |
| TokenBuckets.IdleBucketsGo | v10/internal/ratelimit/controller.go:228-235 | in every run of a limiter that is on, no bucket of the shard just called has been idle for twice idleTTL |
| TokenBuckets.HashKey | v10/internal/ratelimit/controller.go:264-275 | the FNV-1a hash with 32-bit wrap-around, reduced to a shard index |
| TrafficController.ConnectionGate.AcquireConnection | v10/internal/ratelimit/controller.go:109-140 | refused exactly at a cap that is set, and then nothing changes; otherwise one new grant; always connections is the number of unreleased grants and the sum of the per-address counts, no count is zero, and the caps hold |
| TrafficController.ConnectionGate.Release | v10/internal/ratelimit/controller.go:127-138 | any number of calls of one release give back one connection, and a zero count leaves the map |
| TrafficController.AllowMessage | v10/internal/ratelimit/controller.go:142-170 | user first, then room; a room refusal has used a user token; a user refusal does not touch the room |
| TrafficController.UserKeyIsSharedIff | v10/internal/ratelimit/controller.go:143-143 | a user of a room shares the bucket with another pair exactly if the room id or the user id holds a NUL byte |
| TrafficController.PairsMeetIff | v10/internal/ratelimit/controller.go:158-158 | two different pairs share a bucket exactly if one arises from the other by moving bytes that end in a NUL from the user to the room |
| TrafficController.UserKeysDiffer | v10/internal/ratelimit/controller.go:142-145 | keys of different pairs differ when no room id, or no user id, holds a NUL byte |
| TrafficController.UserKeysCanMeet | v10/internal/ratelimit/controller.go:157-159 | two pairs with one key, where only one user id and one room id hold a NUL byte |
| CircuitBreaker.Breaker.Allow | v10/internal/resilience/breaker.go:112-138 | the atomic step of asking for a permit, whose answer is that of BreakerRuns.AdmitsIff |
| CircuitBreaker.Breaker.Complete | v10/internal/resilience/breaker.go:140-169 | the atomic step of completing one, inert for a permit of another phase |
| CircuitBreaker.Breaker.Execute | v10/internal/resilience/breaker.go:81-97 | whatever other callers do while the operation runs, its permit is completed exactly once, as a failure when the operation panics; without a permit it is not run |
| CircuitBreaker.Breaker.constructor | v10/internal/resilience/breaker.go:63-79 | closed; settings that are not positive become 3 failures and 5 s, all others are kept |
| BreakerRuns.PhasesNeverRepeat | v10/internal/resilience/breaker.go:112-177 | in every interleaving (generation, Open < HalfOpen < Closed) increases strictly with every change of phase |
| BreakerRuns.StalePermitIsInert | v10/internal/resilience/breaker.go:144-146 | once its phase has passed a permit never changes the breaker again |
| BreakerRuns.OneProbeAtATime | v10/internal/resilience/breaker.go:119-133 | HalfOpen holds exactly when a probe is in flight, with exactly one outstanding half-open permit, of the current generation |
| BreakerRuns.OpensExactlyOnFailures | v10/internal/resilience/breaker.go:160-168 | a closed breaker opens exactly when the last FailureThreshold completions of its phase all failed |
| BreakerRuns.AdmitsIff | v10/internal/resilience/breaker.go:112-138 | in every state of every run a request gets a permit if and only if the breaker is closed, or open with one time-out passed since it opened; the permit is for the phase the request leads to; a refusal changes nothing but its count |
| BreakerRuns.StateMoves | v10/internal/resilience/breaker.go:112-177 | in every run the state moves exactly so: Closed to Open at the last of FailureThreshold failures in a row, Open to HalfOpen at the first request after the time-out, HalfOpen to Closed or Open as the probe succeeds or fails |
| BreakerRuns.CanRecover | v10/internal/resilience/breaker.go:119-157 | from every reachable state at most one request and one successful completion lead back to Closed |
| BreakerRuns.CountersAreHistory | v10/internal/resilience/breaker.go:148-177 | openings equal the generation, and recoveries plus failed probes plus the one still going on |
| BreakerRuns.LoadWhileTripped | v10/internal/resilience/breaker.go:119-133 | from leaving Closed until returning to it, one whole time-out passes for every admitted operation |
| BreakerRuns.SpanIsProduct | v10/internal/resilience/breaker.go:171-177 | the time-outs that pass for n operations are n times OpenTimeout |
| IngressPipeline.IngressIsConserved | v10/internal/ws/manager.go:300-317 | with Redis, in every interleaving: accepted is what is queued, being encoded, unencodable, queued for Redis or degraded; queued for Redis is what waits, is being published, was published, refused or failed; degraded is the sum of its three causes, all up to goroutines about to count |
| IngressPipeline.EachPacketEndsOnce | v10/internal/ws/manager.go:364-381 | no packet is published and handed to local clients, or either twice, or offered to persistence more often than it was accepted; where each of these is counted by the moves: by what the publisher and the persister answered, whether the queues were full, and whether it could be encoded |
| IngressPipeline.HistoryIsAnswered | v10/internal/ws/manager.go:300-381 | what has happened to a packet, and how often, is exactly what the moves of the run say: acceptance and refusal by a queue of 512, the persister's and the publisher's answers |
| IngressPipeline.AnswersDecide | v10/internal/ws/manager.go:364-381 | when nothing is under way a packet was handed to local clients as often as the publisher refused it or failed, the Redis queue was full or there was no Redis: one that was accepted once and delivered never, one that was not delivered once |
| IngressPipeline.QuietIsSettled | v10/internal/ws/manager.go:444-465 | when nothing is under way every accepted packet was published, handed over or unencodable, once; every accepted packet and no other was offered to persistence; and the counters are exact |
| IngressPipeline.QuietCounters | v10/internal/ws/manager.go:300-381 | when nothing is under way each of the ten counters is the number of its own events |
| IngressPipeline.EveryScheduleDrains | v10/internal/ws/manager.go:266-284 | after the last submission every schedule ends within a bound, and only when everything is quiet |
| IngressPipeline.NeverStuck | v10/internal/ws/manager.go:335-362 | no state in which something is left to do blocks every goroutine |
| SnapshotRuns.EachArrayHasOnePlace | v10/internal/ws/manager.go:492-552 | in every run of any goroutines each array is in the pool, in one queued job, with one goroutine, or nowhere; gets are puts, drops and arrays out, up to goroutines between an access and its count |
| SnapshotRuns.PooledIsNil | v10/internal/ws/manager.go:540-551 | every cell of a pooled array, up to its capacity, is nil, and the capacity is at most the retained one |
| SnapshotRuns.DroppedIff | v10/internal/ws/manager.go:535-543 | an array is dropped exactly when it is released with a capacity above 8192 |
| SnapshotRuns.InUseIsUntouched | v10/internal/ws/manager.go:346-355 | whatever any goroutine does next, the array of a job that is queued, about to be sent or being worked on keeps its contents |
| SnapshotRuns.SnapshotsAreCurrent | v10/internal/ws/manager.go:516-533 | a job that is put together lists the members its room has at that moment, each once |
| SnapshotRuns.MembersArePresent | v10/internal/ws/manager.go:383-442 | in every run the members of a room are exactly those who have come and not gone; a room without any does not exist; with Redis exactly the others are subscribed to |
| SnapshotRuns.JobsReachTheirMembers | v10/internal/ws/manager.go:346-355 | every finished job went to exactly the members of its snapshot, each once; every enqueued job is queued, with one worker, or finished, once |
| SnapshotRuns.CanGoOn | v10/internal/ws/manager.go:492-552 | no goroutine gets stuck with an array, and no worker meets a nil client |
| SnapshotRuns.NextIsSound | v10/internal/ws/manager.go:383-442 | every move of every goroutine keeps all of this, and that no room is empty and, with Redis, exactly the rooms that exist are subscribed to |
| SnapshotPool.Manager.SnapshotRoomClients | v10/internal/ws/manager.go:516-533 | makes the machine's moves: nothing without a room, otherwise the goroutine ends up holding a job for it |
| SnapshotPool.Manager.Append | v10/internal/ws/manager.go:529-531 | one member more in the same array, or in a larger new one that holds the same |
| SnapshotPool.Manager.ReleaseSnapshot | v10/internal/ws/manager.go:535-552 | makes the moves of a release: up to a capacity of 8192 the array is cleared cell by cell, in the pool and counted as put; above it, and only then, it is dropped and counted as such |
| SnapshotPool.Manager.EnqueueLocalBroadcast | v10/internal/ws/manager.go:492-514 | makes the moves of snapshot, offer and, if need be, release, and holds nothing afterwards; a job for the room is appended exactly if there is a room and fewer than 1024 jobs wait, and each counter says what became of it |
| SnapshotPool.Manager.TakeJob | v10/internal/ws/manager.go:346-351 | this goroutine, and no other, gets the oldest job |
| SnapshotPool.Manager.FinishJob | v10/internal/ws/manager.go:346-355 | makes one move for each client read and sent to, and those of the release; it sends to the clients the snapshot listed and gives the array back |
| SnapshotPool.Manager.Register | v10/internal/ws/manager.go:383-407 | the client joins its room; with a Redis client, and only then, a new room is subscribed to |
| SnapshotPool.Manager.Unregister | v10/internal/ws/manager.go:409-442 | an unknown client changes nothing; the last client ends the room and, with a Redis client, its subscription |
| LikeAggregation.LikesAreConserved | v10/internal/ws/manager.go:319-333 | in every interleaving of likes, rooms and ticks: likes added are those in memory, held by the running tick, flushed, or discarded; Redis has the flushed ones and those it applied while reporting failure |
| LikeAggregation.NothingIsCountedTwice | v10/internal/ws/manager.go:607-616 | Redis never has more than was given, but for the amounts of increments it applied and reported as failed; it has more only if it once did that |
| LikeAggregation.AmbiguousIff | v10/internal/ws/manager.go:659-663 | there are ambiguous likes exactly if Redis once applied an increment with likes in it and reported it as failed |
| LikeAggregation.LikesAreLostIff | v10/internal/ws/manager.go:582-597 | with Redis, at rest and if it never applied an increment that it reported as failed, Redis has fewer likes of a room than were given if and only if some tick drained likes of the room without having found it |
| LikeAggregation.MissingLikesIff | v10/internal/ws/manager.go:650-674 | the same in every state, with what is in memory or with the tick taken into account |
| LikeAggregation.LocalTotalsKeepAll | v10/internal/ws/manager.go:702-706 | the local total, which is shown without Redis, is always what was given |
| LikeAggregation.LikeAndLeaveIsLost | v10/internal/ws/manager.go:687-694 | a run with Redis in perfect health that loses a like |
| LikeAggregation.Aggregator.AddLike | v10/internal/ws/manager.go:319-333 | does the machine's step; a like without a count is one |
| LikeAggregation.Aggregator.BroadcastStats | v10/internal/ws/manager.go:582-648 | whatever others do before the drain and during each room's turn, a tick follows the machine; afterwards the drained likes of exactly the counted rooms for which the circuit was open, the report or the increment failed are in memory again, with those given meanwhile; Redis has got exactly the drained likes of the rooms whose increment it applied; nothing moves if there was no room |
| LikeAggregation.Aggregator.LoadDistributedStats | v10/internal/ws/manager.go:650-674 | likes count as flushed exactly if the increment was acknowledged, also when a later read fails |
| LikeAggregation.Aggregator.StartStatsBroadcast | v10/internal/ws/manager.go:570-580 | a tick starts exactly if none is running, otherwise it is counted as skipped |
| LaneScheduler.GreedyIsClosedForm | v10/web/src/components/DanmakuStage.tsx:85-101 | with k lanes, message i starts at its arrival or 2200 ms after the start of message i-k, whichever is later |
| LaneScheduler.GreedyIsOptimal | v10/web/src/components/DanmakuStage.tsx:22-42 | no legal schedule in arrival order starts any message earlier |
| LaneScheduler.GreedyIsLegal | v10/web/src/components/DanmakuStage.tsx:94-95 | starts on one lane are at least 2200 ms apart, none is before its arrival or before an earlier message |
| LaneScheduler.AssignLane | v10/web/src/components/DanmakuStage.tsx:22-42 | the loop selects `Earliest`, on one lane if the count is not finite or below one |
| LaneScheduler.EarliestIsLeast | v10/web/src/components/DanmakuStage.tsx:30-39 | the selected lane is free as early as any, and is the first such |
| LaneScheduler.UnseenAre | v10/web/src/components/DanmakuStage.tsx:87-92 | the messages placed are exactly those whose id was not seen before, the first of each id, in their order |
| LaneScheduler.Stage.Refresh | v10/web/src/components/DanmakuStage.tsx:76-115 | each unseen message is placed as the greedy schedule of all arrivals since the last change of scope places it, at the start of the closed form; exactly the present ids are remembered; the last 40 are shown |
| LatencyHistogram.LatencyStats.Percentile | v10/cmd/benchmark/main.go:75-85 | for every rank from 1 to the count the scan answers `Answer`: the rank-th smallest sample in whole buckets |
| LatencyHistogram.AnswerIsCloseAbove | v10/cmd/benchmark/main.go:50-60 | which is that sample rounded up to 10 microseconds and clamped to 10 s, less than a bucket above it |
| LatencyHistogram.SortedIsSorted | v10/cmd/benchmark/main.go:75-85 | the reference the ranks refer to is the ascending permutation of the samples |
| LatencyHistogram.LatencyStats.Record | v10/cmd/benchmark/main.go:50-60 | the buckets count exactly the samples recorded; a negative latency is none |
| LatencyHistogram.LatencyStats.Summary | v10/cmd/benchmark/main.go:62-73 | the three percentiles are such answers, at the least ranks that are at least 50, 95 and 99 percent of the count |
| LatencyHistogram.RankIsNearest | v10/cmd/benchmark/main.go:75-76 | a rank reaches that of a percentile exactly if it is at least that share of the count |
| ReconnectSocket.WiredIff | v10/web/src/realtime/useDanmakuSocket.ts:162-177 | in every run, if and only if `reconnect` is never called while unmounted, always: while mounted exactly one of a live current socket and a pending timeout; the timeout is the only one set, of the current generation, with the delay of its attempt; the only live socket is the current one, opened for the present identity; then the list is the last at most 300 packets accepted, all from such sockets and for the room |
| ReconnectSocket.AtMostOneLive | v10/web/src/realtime/useDanmakuSocket.ts:73-95 | two live sockets are one, and there is none while unmounted |
| ReconnectSocket.StrayReconnectLeaks | v10/web/src/realtime/useDanmakuSocket.ts:207-215 | a stray call and a new mount leave two sockets open |
| ReconnectSocket.CanConnect | v10/web/src/realtime/useDanmakuSocket.ts:64-70 | from every state while mounted the opening of the live current socket, or the timeout that is set and then the opening of its new socket, lead to connected |
| ReconnectSocket.CloseSchedules | v10/web/src/realtime/useDanmakuSocket.ts:151-158 | in every run the close of the current socket sets a timeout at once, of 500 ms doubled with each retry in a row and at most 10 s, shows "reconnecting", and opens nothing |
| ReconnectSocket.AttemptsAreRetries | v10/web/src/realtime/useDanmakuSocket.ts:53-71 | the attempt is the number of reconnects scheduled since the current socket last opened or everything started afresh, and gives the delay of the timeout that is set |
| ReconnectSocket.NextTries | v10/web/src/realtime/useDanmakuSocket.ts:73-95 | mounting, another identity, the timeout and `reconnect` each make the next socket, live and current, or else set a timeout; nothing else makes a socket |
| ReconnectSocket.StatusIsTrue | v10/web/src/realtime/useDanmakuSocket.ts:97-104 | while mounted "connected" is shown exactly if the current socket has opened, otherwise "reconnecting" after a failed attempt and "connecting" before one |
| ReconnectSocket.AcceptsAll | v10/web/src/realtime/useDanmakuSocket.ts:106-121 | the danmaku accepted are exactly those of the room that came from the current socket since the identity was rendered, in order |
| ReconnectSocket.MountedIsRendered | v10/web/src/realtime/useDanmakuSocket.ts:162-177 | the hook is mounted for exactly the identity last rendered and not unmounted since |
| ReconnectSocket.StaleIsInert | v10/web/src/realtime/useDanmakuSocket.ts:97-150 | events of a socket that is not the current one change nothing the hook has |
| ReconnectSocket.DelayDoubles | v10/web/src/realtime/useDanmakuSocket.ts:58-61 | the delay starts at 500 ms, doubles, and is 10 s from the sixth attempt on |
| ReconnectSocket.DanmakuSocket.Open | v10/web/src/realtime/useDanmakuSocket.ts:73-95 | connect: a new generation, and a socket or, when the constructor throws, a scheduled reconnect |
| ReconnectSocket.DanmakuSocket.Schedule | v10/web/src/realtime/useDanmakuSocket.ts:53-71 | a stale generation or a pending timeout schedules nothing |
| ReconnectSocket.DanmakuSocket.OnMessage | v10/web/src/realtime/useDanmakuSocket.ts:106-121 | only a danmaku of the room from the current socket is appended, and the list keeps 300 |
| ReconnectSocket.DanmakuSocket.OnClose | v10/web/src/realtime/useDanmakuSocket.ts:151-158 | only the current socket's close schedules a reconnect |
| ReconnectSocket.DanmakuSocket.Render | v10/web/src/realtime/useDanmakuSocket.ts:162-177 | a new identity drops socket, timeout and list, and connects |
| ReconnectSocket.DanmakuSocket.OnReconnect | v10/web/src/realtime/useDanmakuSocket.ts:207-215 | everything is dropped and a new connection opened, mounted or not |
| InsightProcessor.EndsOnce | v11/insight/internal/app/processor.go:93-134 | a window ends with exactly one successful Complete or Release, a Release exactly on failure, a Complete only right after a successful Save; all calls are about this window and answered as they were |
| InsightProcessor.WhatIsSaved | v11/insight/internal/app/processor.go:98-128 | a normal insight is the whole primary analysis, all of whose evidence is of the window; a degraded one has the rules of the fallback, nothing else, and why; something is saved exactly if there is one or the other |
| InsightProcessor.NormalIff | v11/insight/internal/app/processor.go:98-121 | completed, degraded and failed are told apart by the answers exactly so |
| InsightProcessor.Processor.ProcessWindow | v11/insight/internal/app/processor.go:93-134 | makes exactly those calls in that order |
| InsightProcessor.ValidatePrimaryEvidence | v11/insight/internal/app/processor.go:136-172 | the loops report the first kind of evidence that is empty or cites an unknown event, and nothing exactly if all is grounded |
| InsightPool.EachWindowEndsOnce | v11/insight/internal/app/processor.go:58-91 | when ProcessDue returns, under every schedule and all answers, each claimed window was ended exactly once by the calls its worker made on what it was answered |
| InsightPool.SummaryIsTheWholeTruth | v11/insight/internal/app/processor.go:81-91 | completed, degraded and failed count how the windows ended and add up to those claimed; an error is reported exactly if a Release failed |
| InsightPool.EveryScheduleReturns | v11/insight/internal/app/processor.go:58-79 | no schedule has more moves than six for each window, one for each worker, and two; one that cannot go on has returned |
| InsightPool.NeverStuck | v11/insight/internal/app/processor.go:63-79 | no deadlock for any positive number of workers and job capacity, however many windows |
| InsightPool.Configured | v11/insight/internal/app/processor.go:42-56 | accepted exactly with all dependencies, positive workers and a capacity that is not negative; then the settings are kept, and a zero capacity is replaced by 128 |

## Left out

- Versions 1 to 9 and the root `internal/` tree: earlier forms of the same code.
- Kafka, MySQL, Redis, WebSocket, HTTP, JSON and logging: only the contracts above; decoding a record is part of the record.
- More than one partition: the table is modelled with one partition's log at a time; rows whose id occurs in two partitions are not ordered.
- `ClaimHandler.Handler.ConsumeClaim` on the pending slice: it is a sequence here, not a reused slice cleared in place; how long the wait between two attempts of one flush is, retryAttempts, failedBatches and the duration metrics are left out, and the process may be killed only when the environment is asked.
- Records.Classify: strings are sequences of Unicode code points; UTF-8 itself is not modelled.
- TokenBuckets.AnswersAgree: tokens are reals, so rounding of float64 is not modelled; calls on one limiter are taken in the order of their clock readings, though the code reads the clock before it locks the shard.
- ArrivalCurve.WindowBound: no bound is given for an idleTTL too short for an idle bucket to fill up.
- BreakerRuns.LoadWhileTripped: completions by `runtime.Goexit`, clocks that run back and counter wrap-around are not modelled.
- IngressPipeline.IngressIsConserved: the goroutines are moves on a value rather than methods that update the manager's channels and counters in place; a send, an increment and a call are one move each. What local clients receive through the room's Redis subscription, and delivery order, are not modelled; a publication that fails after Redis has passed it on counts as failed.
- SnapshotRuns.EachArrayHasOnePlace: the counts of drops, enqueued and dropped jobs are part of the move they count; slow clients, the closing of a client and the fan-out and unsubscription counters are left out. The pool is a set, which loses nothing, since an array is never in it twice.
- SnapshotPool.Manager.EnqueueLocalBroadcast: proved for one goroutine undisturbed, move by move; what other goroutines do between its moves is in `SnapshotRuns`. A full slice grows to twice its capacity here; there, to any.
- LikeAggregation.Aggregator.BroadcastStats: others come in before the drain and once in each room's turn, between what Redis answers and what is put back; all other points are in the machine only.
- LikeAggregation.LikesAreConserved: flushing one room is one step of its goroutine with respect to the counters, and amounts are unbounded numbers; online counts and the statistics packets are left out.
- LaneScheduler.Stage.Refresh: React's rendering, the end of animations and removal of shown messages are left out.
- ReconnectSocket.WiredIff: rendering a new identity and its layout effect are one event; statistics, control messages and retry deadlines are left out, and so are the sends.
- LatencyHistogram.LatencyStats.Summary: ranks are exact percentages, not rounded products of floats; concurrent recording during a summary and overflow near the largest duration are left out.
- InsightProcessor.Processor.ProcessWindow: an absent list and an empty list are one value, so the normalisation of collections has nothing to do; the text of the reason is left out, only which check failed is kept.
- InsightPool.EachWindowEndsOnce: the caller and the workers are moves on a value, with channels as sequences; processing one window is one move, whose calls are those of `InsightProcessor.Processor.ProcessWindow`. The store's calls for different windows interleave; only how often each window is ended is kept. At most 32 windows are claimed at a time; the results hold for any number.
- The window store, the repository, the model guard and the rule analyzer of the insight worker: only their interfaces.
- JWT login, static files, command-line tools, data cleaning, metric pages and charts: plumbing.
- publisher_health.go: a small machine that a single reading settles.
