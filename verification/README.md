# Alpha Panda in Dafny

Alpha Panda is an event-streaming trading system: services exchange enveloped events over broker
topics, deduplicate them through Redis, dead-letter what they cannot process, and publish metrics
and alerts about themselves. This project models the stateful cores of that system and proves what
holds of them over every run.

* `DlqReplay`, `Deduplication`, `Delivery` are one protocol. The replay tool reads a partitioned
  dead-letter topic with manual commits and republishes; a consumer checks, handles, marks and
  commits, and an error handler takes over when a handler or a commit fails. Fetch, send, commit,
  crash, restart, rebalance, clock ticks, other producers and failing calls are separate events, so
  every interleaving is a run. `Delivery` composes the two sides.
* `DeadLetters` follows a failed message from the publisher through the producer to the replay tool,
  and `StreamProcessing` the consume loop with its error handler.
* `Reliability` is the layer that the services wrap around their handlers today. It commits before it
  marks and keeps a local cache, and gets the same count of handlings as `Delivery`.
* `RateLimiting` holds both sliding-window limiters and compares them through references that keep
  the whole request log.
* `PipelineMetrics`, `Alerting`, `Metrics` and `Tracing` compare bounded or expiring state with the
  full call log. `Redis` is the key-value store with expiry, `Averages` the incremental mean,
  `JsonValues` the dictionaries that messages are made of.
* `MarketHours` is the trading calendar over unbounded dates; `Migration` the strategy migration
  and its rollback; `PaperTrading` the order decisions and books of the paper-trading service,
  behind the cache of `Idempotence`;
  `Lineage`, `Redaction` and `Topics` are the causal chains, the log redaction and the textual keys.

Objects that the source updates in place are classes. Each of their methods is proved equal to one
step of a specification function, and the theorems are about runs of those functions. Times are
integers in microseconds (reals in `Tracing`); prices, averages and measurements are reals.

## Where the code and its documentation differ

The model follows the code. These differences are theorems:

* Replaying dead letters (docs/implementation/IMPLEMENTATION_PATTERNS.md:24 promises a replay tool
  behind the dead-letter topics): the producer wraps every dead letter in an event envelope, the
  tool looks for its fields at the top level, so it skips and commits everything the publisher sends
  (`DeadLetters.PublishedDeadLetterIsSkipped`, `DeadLetters.NothingIsReplayed`).
* "Bounded retries (3-5 attempts)" in the same line: a failed message is retried once and not
  redelivered while the process keeps its partitions. A budget of n attempts is used up only by n
  rebalances within one process (`StreamProcessing.BudgetExhaustedIff`), and the next commit, of
  whatever message, loses the message (`StreamProcessing.LeftBehindThenLost`).
* Exactly-once processing (core/streaming/deduplication.py:1-6): a commit that fails after handling
  and mark makes the error handler run the handler again (`Delivery.FailedCommitHandlesAgain`), and
  a handling by retry is never marked (`Delivery.RetryIsNotMarked`).
* A dry run of the replay tool, documented as only logging (scripts/dlq_replay.py:75), commits what
  it prints, which then is never replayed (`DlqReplay.DryRunDropsEntry`).
* The next open promised by core/market_hours/models.py:142-151 passes over trading from the bell on
  for as long as the market opens again the same day: at the bell itself, where the default calendar
  reports PRE_OPEN, in an enforced lunch break, and during the session (`MarketHours.OverlooksIff`,
  `MarketHours.DefaultHoursSkip`).
* The Redis limiter names set members after the time stamp, so two requests at one instant count
  once (`RateLimiting.TiesFoolRedis`).
* A limit order of the day that the market does not reach is reported as filled, with quantity zero
  (`PaperTrading.FilledExactly`).
* A key configured for redaction with a capital letter protects nothing (`Redaction.SensitiveIff`).
* A broker called `market` shares its keys with everybody's ticks
  (`PipelineMetrics.LegacyNotIsolated`).
* The quantity guardrails of paper trading look at the signal's quantity, not at the validated one
  (`PaperTrading.NegativeQuantityGoesShort`, `PaperTrading.NegativeSaleOverdraws`); exactly which
  orders can do harm is `PaperTrading.OrderKeepsBooksIff`.
* An order whose send fails between two parts stays partly filled: the idempotence cache ignores the
  retry (`PaperTrading.WholeIffAllSent`, `PaperTrading.RepeatIgnoredIff`). The cache is made for 2000
  keys and remembers 1999 (`Idempotence.StateMatchesLog`).
* The migration adds its `use_composition` parameter only to rows without such an attribute. The
  table has that column (core/database/models.py:53), so the branch never runs; `hasColumn` covers
  both cases in every theorem.

## Model

| member | source | states |
|---|---|---|
| `DlqReplay.ReplayGuarantee` | scripts/dlq_replay.py:41-63 | Over every interleaving of arrivals, runs, dry runs and crashes: each entry below the committed offsets that names a topic and carries a value was republished to that topic with key text and value intact, unless a dry run committed it; nothing but such copies is ever published; publications plus dry commits equal commits plus lost commits plus the one in flight. |
| `DlqReplay.StepKeepsInv` | scripts/dlq_replay.py:41-63 | Every single event keeps faithfulness, coverage and conservation. |
| `DlqReplay.RunKeepsInv` | scripts/dlq_replay.py:20-66 | They hold in every reachable state. |
| `DlqReplay.CommitAddsCurrent` | scripts/dlq_replay.py:48-61 | A commit moves exactly the message in hand below the committed offsets; a malformed one adds nothing to the well-formed commits. |
| `DlqReplay.HistoryBounds` | scripts/dlq_replay.py:52-61 | Commits are lost only to crashes, and only dry runs commit without publishing. |
| `DlqReplay.BoundedDuplication` | scripts/dlq_replay.py:41-63 | Without dry runs, publications exceed the committed well-formed entries by at most the number of crashes plus one. |
| `DlqReplay.RunRespectsLimit` | scripts/dlq_replay.py:39-63 | A run with a non-zero limit publishes at most its quota, however it ends; malformed entries do not count, and a negative limit stops after one. |
| `DlqReplay.CommittedIsFinal` | scripts/dlq_replay.py:48-61 | An entry committed without having been published is never published by any later run. |
| `DlqReplay.DryRunDropsEntry` | scripts/dlq_replay.py:52-61 | The entry a dry run has just printed is committed and stays unpublished for ever. |
| `DlqReplay.UnreadableBlocks` | scripts/dlq_replay.py:42-47 | A record whose reading raises keeps its partition's offset at or below it in every run. |
| `DlqReplay.AttemptIsRun` | scripts/dlq_replay.py:41-63 | The loop body, cut off after any number of awaits, is a run of protocol events. |
| `DlqReplay.ReplayOne` | scripts/dlq_replay.py:41-63 | The imperative body reaches the state, outcome, count and remaining awaits of `Attempt`. |
| `DlqReplay.Replay` | scripts/dlq_replay.py:20-66 | The whole loop, whatever is delivered and wherever it dies, reaches the state and count of `Session`. |
| `DlqReplay.SessionIsRun` | scripts/dlq_replay.py:20-66 | Every such session is a run of protocol events that ends with the tool off. |
| `DlqReplay.SessionAchieves` | scripts/dlq_replay.py:39-63 | It publishes exactly the entries it counts, unless dry; it ends by itself only with its limit used up; and if it lives long enough and no entry raises, it processes all well-formed entries delivered and commits every partition one entry per delivery, or stops at its limit. |
| `DlqReplay.CommitStopsIff` | scripts/dlq_replay.py:60-63 | After committing a processed entry the tool stops iff there is a limit and it is negative or reached; otherwise it goes on. |
| `DlqReplay.LoopSpends` | scripts/dlq_replay.py:41-63 | The process lives through exactly the sends and commits it makes, however its run ends. |
| `DlqReplay.WalkAdvances` | scripts/dlq_replay.py:41-61 | Deliveries read a partition from its position on, once each, up to its end. |
| `DlqReplay.ArrivedIsReplayed` | scripts/dlq_replay.py:41-61 | An entry that arrives while the tool is idle is replayed and committed by its next run. |
| `Deduplication.KeyOfInjective` | core/streaming/deduplication.py:50 | Different event ids have different marks. |
| `Deduplication.MarkEffect` | core/streaming/deduplication.py:74-89 | A successful mark sets the expiry of its own id to now plus the time to live and touches no other id; a failed one changes nothing. |
| `Deduplication.EventDeduplicator.constructor` | core/streaming/deduplication.py:21-36 | Counters start at zero. |
| `Deduplication.EventDeduplicator.IsDuplicate` | core/streaming/deduplication.py:38-64 | The verdict is whether a live mark exists; a failed call answers "not a duplicate" and counts an error; marks are not refreshed. |
| `Deduplication.EventDeduplicator.MarkProcessed` | core/streaming/deduplication.py:66-89 | The mark is stored with its time to live, or an error is counted and swallowed. |
| `Delivery.HandlingsBounded` | core/streaming/clients.py:393-481 | Over every run of tool and consumer, an event is handled at most once, plus its failed or lost Redis calls, plus its deliveries a full time to live after its last mark, plus its handlings by a retry of the error handler; every failed handler or failed commit that reaches the error handler ends in exactly one of retry, dead letter, left behind or death, so retries are bounded by those failures. |
| `Delivery.BoundReached` | core/streaming/clients.py:393-481 | The bound is tight: for all numbers of retries, faults and late deliveries some run has exactly these and reaches it. |
| `Delivery.ReplayedEventHandled` | scripts/dlq_replay.py:41-63 | Once the target topic is drained, the event named by the payload of every well-formed entry a real run committed has been handled or given up again, handled unless its handler failed, and handled exactly once when no Redis call, mark, handler or commit for it failed and no copy came late. |
| `Delivery.CommittedEventHandled` | core/streaming/clients.py:404-481 | An event whose payload below the committed offsets names an id was handled or given up under that id, and handled unless its handler failed. |
| `JsonValues.EventIdIs` | core/streaming/clients.py:404 | An event is deduplicated under the id in its payload, as text or as a number's text, and under none if it has none. |
| `Delivery.UnmarkedLetThrough` | core/streaming/clients.py:207-224 | An event whose id has no mark reaches the handler however the check goes; a message without type is skipped, one without id is handled unchecked. |
| `Delivery.CommitHolds` | core/streaming/clients.py:182-188 | After a commit neither a death nor a rebalance goes back; after a failed one both do. |
| `Delivery.UncommittedComesBack` | core/streaming/clients.py:201-215 | After a death or a rebalance the first uncommitted message of a partition is delivered again. |
| `Delivery.OtherTopicsUntouched` | scripts/dlq_replay.py:55-59 | Publications to other topics do not reach this one. |
| `Delivery.FailedCommitHandlesAgain` | core/streaming/clients.py:462-476 | In every state, a failed commit after the mark and a successful retry handle the event once more with no Redis fault and no late copy. |
| `Delivery.RetryIsNotMarked` | core/streaming/error_handling.py:554-566 | After a handling by retry, an event that was not marked before is not recognized by any later check. |
| `Delivery.TallyCounts` | core/streaming/clients.py:419-481 | The tally the invariant speaks about counts the consumer's acts as the reference definitions do. |
| `Delivery.RunKeepsInv` | core/streaming/clients.py:393-481 | In every reachable state of the composition the store holds exactly the last successful marks, handlings and failures are accounted for, what lies behind positions and committed offsets is settled, and what the tool published is in the topic. |
| `Delivery.StepKeepsInv` | core/streaming/clients.py:393-481 | Every step, the exception branch included, keeps the consumer's part of that invariant. |
| `Delivery.SeenIffMarked` | core/streaming/deduplication.py:48-64 | In such a state a check finds a duplicate iff the call succeeds and the last mark is younger than the time to live. |
| `Delivery.TakeKeepsInv` | core/streaming/clients.py:201-215 | Fetching and checking: the position moves on, non-events are skipped, events without id are not checked, fail-open checks are paid for. |
| `Delivery.HandleKeepsInv` | core/streaming/clients.py:442-448 | A handling uses up exactly the allowance its check established; a failing handler hands the event to the error handler. |
| `Delivery.MarkKeepsInv` | core/streaming/clients.py:453-463 | The mark after a handling pays for it, whether Redis takes it or not. |
| `Delivery.CommitKeepsInv` | core/streaming/clients.py:462-476 | A commit covers all positions, and everything behind them is settled by then; a commit that fails after a mark hands the event to the error handler. |
| `Delivery.RecoveryKeepsInv` | core/streaming/error_handling.py:526-602 | Each way out of the error handler is recorded: a successful retry as a handling without a mark, a failed retry or dead-letter send as left behind. |
| `Delivery.DieKeepsInv` | core/streaming/clients.py:442-463 | A consumer that dies resumes at the committed offsets; between handling and mark this leaves one counted fault. |
| `Reliability.HandlingsBounded` | core/streaming/reliability/reliability_layer.py:61-118 | For the layer that commits before it marks: over every run an event is handled at most once, plus its handlings whose commit or mark failed or whose flow died before the mark, plus its deliveries let through a full time to live after its last mark, plus its retries; every failure that reaches the error handler ends in exactly one way. |
| `Reliability.CommittedEventHandled` | core/streaming/reliability/reliability_layer.py:88-113 | An event below the committed offsets was handled or given up, handled unless its handler failed, and handled exactly once when nothing of its own failed, no flow died over it and no copy came late. |
| `Reliability.DeathAfterCommit` | core/streaming/reliability/reliability_layer.py:88-91 | A flow that dies between commit and mark does not recognize a copy of the message it does not get again. |
| `Reliability.ArrivalIs` | core/streaming/reliability/deduplication_manager.py:19-38 | What becomes of a message that arrives, by its id, the cache, its last mark and whether Redis answers. |
| `Reliability.CommitHolds` | core/streaming/infrastructure/message_consumer.py:126-136 | After a commit a death does not go back in that partition, and does in the others. |
| `Reliability.UncommittedComesBack` | core/streaming/infrastructure/message_consumer.py:100-116 | After a death or a rebalance between messages the first uncommitted message of a partition is delivered again. |
| `Reliability.MarkHolds` | core/streaming/reliability/deduplication_manager.py:40-50 | A marked event is skipped for a full time to live even after a death, and as long as it is cached. |
| `Reliability.CopyAfterTtl` | core/streaming/reliability/deduplication_manager.py:25-38 | After that only the cache recognizes a copy; a death or an eviction forgets it. |
| `Reliability.NewMessage` | core/streaming/reliability/reliability_layer.py:61-91 | The way of a new message when nothing fails: checked, handled, committed and marked, once. |
| `Reliability.RecoveryCommits` | core/streaming/error_handling.py:526-602 | After a successful retry or dead letter the message is committed, after a failed one nothing is. |
| `Reliability.StepKeepsInv` | core/streaming/reliability/reliability_layer.py:33-118 | Every step keeps marks, cache, handlings, failures and offsets in agreement. |
| `Reliability.ArrivalKeepsInv` | core/streaming/reliability/deduplication_manager.py:19-38 | What is found in the local cache or in Redis was handled before; a check that does not reach Redis ends the flow and costs no handling. |
| `Reliability.MarkKeepsInv` | core/streaming/reliability/deduplication_manager.py:40-50 | A mark pays for its handling in Redis and in the cache; a failed one hands the event to the error handler. |
| `Reliability.CommitKeepsInv` | core/streaming/infrastructure/message_consumer.py:121-136 | A commit is for the partition of the message in hand, and everything behind it is settled by then. |
| `DeadLetters.BareDeadLetterRoundTrips` | core/streaming/error_handling.py:246-289 | Read back as built, a dead letter gives back topic, key text and value, and is well formed iff there is a topic and a value. |
| `DeadLetters.NonTextTopic` | scripts/dlq_replay.py:42-59 | A record that names something other than text as its topic is skipped without a value, and ends the run with one. |
| `DeadLetters.PublishedDeadLetterIsSkipped` | core/streaming/infrastructure/message_producer.py:87-157 | Read back as produced, it never is: the envelope hides the fields, and the tool skips it. |
| `DeadLetters.ReplayableIff` | scripts/dlq_replay.py:42-51 | Of anything handed to the producer the tool replays exactly what carries an `id` of its own and is well formed itself. |
| `DeadLetters.NothingIsReplayed` | core/streaming/error_handling.py:291-298 | Over every run of the tool on topics that only the publisher writes, nothing is published. |
| `StreamProcessing.StreamProcessor.HandleMessage` | core/streaming/clients.py:393-481 | One delivery from one of the assigned partitions is one step of the reference: duplicates are committed, success commits the positions, failures go to the error handler, and every handling is counted. |
| `StreamProcessing.StreamProcessor.HandleProcessingError` | core/streaming/error_handling.py:437-602 | Gives up into the dead-letter topic, or retries once and counts the retry; commits only on success. |
| `StreamProcessing.StreamProcessor.CommitOffset` | core/streaming/clients.py:182-188 | A commit commits the positions of all assigned partitions, whatever became of earlier messages, and a failed one none. |
| `StreamProcessing.HandledTwiceIff` | core/streaming/error_handling.py:554-566 | A delivery handles its own message only and at most twice: twice iff the handler succeeds, the commit fails, and the error handler retries with success. |
| `StreamProcessing.DeliveredExactly` | core/streaming/error_handling.py:437-602 | What a delivery does to its message: how often it is handled, whether it is dead-lettered or skipped, its retry count, and exactly when the positions are committed. |
| `StreamProcessing.CommitHolds` | core/streaming/clients.py:462-476 | After a delivery whose commit is made, by the loop or by the error handler, a restart and a rebalance keep the positions. |
| `StreamProcessing.NeverHandledAgain` | core/streaming/clients.py:393-481 | Over whole runs, a message whose delivery was committed is never handled again: once in all if it had not been handled before. |
| `StreamProcessing.LeavesBehindIff` | core/streaming/error_handling.py:493-602 | Exactly which deliveries leave a message neither handled nor dead-lettered nor a duplicate. |
| `StreamProcessing.NothingLost` | core/streaming/clients.py:393-481 | If no delivery does, every message behind the position is settled, through restarts, rebalances and failed commits. |
| `StreamProcessing.LostForever` | core/streaming/clients.py:462-481 | An unsettled message below the committed offset is never settled by any later event. |
| `StreamProcessing.LeftBehindThenLost` | core/streaming/clients.py:478-481 | A message left behind is not delivered again while the process keeps going; over any uninterrupted events it is lost for ever as soon as anything of any partition is committed, and only before that would a restart or rebalance deliver it again. |
| `StreamProcessing.RetriesBounded` | core/streaming/error_handling.py:463-464 | Over every run the retry count of a message is at most the number of rebalances, plus one once the position is past it. |
| `StreamProcessing.BudgetExhaustedIff` | core/streaming/error_handling.py:506-518 | For every retryable error: some run with at most n rebalances exhausts its budget iff the budget is at most n. |
| `StreamProcessing.AttemptsByKind` | core/streaming/error_handling.py:195-206 | In numbers: transient errors take 5 rebalances, infrastructure 3, rate limits 8, business errors 2; poison and authentication errors are never retried. |
| `StreamProcessing.StructuredAttempts` | core/streaming/error_handling.py:498-518 | A structured error is retried only if it is transient and says so, within its own limit and its kind's. |
| `RateLimiting.MemoryLimiter.Check` | api/middleware/rate_limiting.py:97-112 | The loop evicts from the head, decides and records as the specification does, for the one client. |
| `RateLimiting.RedisLimiter.Check` | api/middleware/rate_limiting.py:70-95 | The pipeline trims, adds, sets the expiry and counts; a failure admits and changes nothing. |
| `RateLimiting.MemoryExact` | api/middleware/rate_limiting.py:97-112 | After any chronological history a request is admitted iff fewer than `calls` admissions lie in its own window. |
| `RateLimiting.MemoryRejectsAtLimit` | api/middleware/rate_limiting.py:106-108 | It is rejected iff exactly `calls` admissions lie there. |
| `RateLimiting.MemoryWindowBound` | api/middleware/rate_limiting.py:97-112 | No client has more than `calls` admissions in any window of the period, wherever it ends. |
| `RateLimiting.AdmissionKeepsBound` | api/middleware/rate_limiting.py:106-112 | An admission into a window with room overfills no other window. |
| `RateLimiting.QueueTracksLog` | api/middleware/rate_limiting.py:102-104 | From any cutoff the clock has reached, the deque is as good as the full log of admissions. |
| `RateLimiting.MemoryIsolation` | api/middleware/rate_limiting.py:100 | Dropping all other clients' requests changes neither a client's deque nor its admissions. |
| `RateLimiting.RedisExact` | api/middleware/rate_limiting.py:77-90 | The Redis decision counts the distinct attempt times of the window, rejected ones included. |
| `RateLimiting.RedisNegativePeriod` | api/middleware/rate_limiting.py:77-90 | With a negative period the expiry deletes the key at once: every request is admitted unless the limit is negative. |
| `RateLimiting.ExpiryInvisible` | api/middleware/rate_limiting.py:83 | The expiry of period + 1 never changes a decision. |
| `RateLimiting.RedisStricter` | api/middleware/rate_limiting.py:70-112 | When the client has no ties inside the request's own window, whatever Redis admits the memory limiter admits after the same history. |
| `RateLimiting.RedisLaxerIff` | api/middleware/rate_limiting.py:70-112 | With or without ties: Redis admits what memory rejects iff the distinct attempt times with the request's own are at most `calls` and the admissions in the window at least `calls`. |
| `RateLimiting.KeysOfReaching` | api/middleware/rate_limiting.py:92-95 | Failed calls leave no trace in Redis, so the statements about Redis runs hold of the calls that reach it. |
| `RateLimiting.RedisWindowBound` | api/middleware/rate_limiting.py:70-95 | With calls failing open, a client has at most `calls` plus its failed calls admissions in any window, if no two of its calls that reach Redis fall on one instant of the window. |
| `RateLimiting.FailedAreAdmitted` | api/middleware/rate_limiting.py:92-95 | Every call that does not reach Redis is admitted. |
| `RateLimiting.TiesFoolRedis` | api/middleware/rate_limiting.py:81 | With a tie Redis admits what memory rejects. |
| `RateLimiting.RejectedAttemptsCountInRedis` | api/middleware/rate_limiting.py:79-90 | Memory admits a client that Redis still shuts out for a rejected attempt, so the comparison is strict. |
| `PipelineMetrics.KeyInjective` | core/monitoring/metrics_registry.py:14-17 | Keys are equal iff stage, broker and metric are, for every broker name and all stage and metric names without a separator. |
| `PipelineMetrics.StoreMatchesLog` | core/monitoring/pipeline_metrics.py:40-224 | After any calls whatever, count and stamp of a stage are those of the full call log since the broker's last reset, an increment counting where its key does. |
| `PipelineMetrics.HealthMatchesLog` | core/monitoring/pipeline_metrics.py:269-322 | The verdict read from expiring keys is the verdict over the never-expiring log, with 5 seconds for ticks and 60 for the other stages; totals are increments since the last reset. |
| `PipelineMetrics.StampsLapse` | core/monitoring/pipeline_metrics.py:33-66 | A stamp lives for exactly 300 seconds after the last activity, a count until the reset. |
| `PipelineMetrics.KeysRead` | core/monitoring/metrics_registry.py:14-84 | The texts of the keys that other components read: ticks, signals and orders. |
| `PipelineMetrics.MoreKeysRead` | core/monitoring/metrics_registry.py:52-95 | The same for validated and rejected signals and portfolio updates. |
| `PipelineMetrics.BrokersIsolated` | core/monitoring/pipeline_metrics.py:361-386 | Other brokers' records, increments and resets change no verdict and no count, unless one of them intrudes: a tick under the shared legacy name, or an increment whose metric and broker read like stage and broker. |
| `PipelineMetrics.UnseenIff` | core/monitoring/pipeline_metrics.py:40-386 | A call for another broker never changes what a stage of a broker reports, after whatever history, iff it does not intrude. |
| `PipelineMetrics.LegacyNotIsolated` | core/monitoring/pipeline_metrics.py:47-65 | Except under the shared legacy name, where any broker's tick shows. |
| `PipelineMetrics.SeparatorCollides` | core/monitoring/pipeline_metrics.py:324-330 | A metric name with a separator intrudes on another broker's counter. |
| `PipelineMetrics.HitView` | core/monitoring/pipeline_metrics.py:61-66 | Commands for one stage and broker change what the pairs with the same key text see and nothing else. |
| `PipelineMetrics.ResetView` | core/monitoring/pipeline_metrics.py:361-383 | A reset clears both keys of every stage of its broker and no other key. |
| `PipelineMetrics.PipelineMetricsCollector.RecordMarketTick` | core/monitoring/pipeline_metrics.py:40-76 | Legacy keys first, then the broker's own, as far as the commands get. |
| `PipelineMetrics.PipelineMetricsCollector.RecordSignalGenerated` | core/monitoring/pipeline_metrics.py:78-112 | Counts and stamps the signals stage. |
| `PipelineMetrics.PipelineMetricsCollector.RecordSignalValidated` | core/monitoring/pipeline_metrics.py:114-154 | Counts and stamps the validated or the rejected stage. |
| `PipelineMetrics.PipelineMetricsCollector.RecordOrderProcessed` | core/monitoring/pipeline_metrics.py:156-190 | Counts and stamps the orders stage. |
| `PipelineMetrics.PipelineMetricsCollector.RecordPortfolioUpdate` | core/monitoring/pipeline_metrics.py:192-224 | Counts and stamps the portfolio stage. |
| `PipelineMetrics.PipelineMetricsCollector.IncrementCount` | core/monitoring/pipeline_metrics.py:324-337 | Increments one counter without a stamp. |
| `PipelineMetrics.PipelineMetricsCollector.ResetMetrics` | core/monitoring/pipeline_metrics.py:361-386 | The loop collects exactly the broker's twelve keys and deletes them. |
| `PipelineMetrics.PipelineMetricsCollector.GetPipelineHealth` | core/monitoring/pipeline_metrics.py:226-258 | Reports exactly the five health stages, and overall health iff all of them are healthy. |
| `MarketHours.Config.NextMarketOpen` | core/market_hours/models.py:142-185 | Terminates for every date and time with the earliest weekday bell strictly after it. |
| `MarketHours.NextBellUnique` | core/market_hours/models.py:159-185 | There is only one such bell. |
| `MarketHours.NextBellWithinThreeDays` | core/market_hours/models.py:171-179 | It is at most three days ahead. |
| `MarketHours.BellIsOpen` | core/market_hours/models.py:129-140 | Exactly when the bell is an instant at which the market counts as open. |
| `MarketHours.StatusIs` | core/market_hours/models.py:90-127 | The status of every instant of every calendar, session by session, weekends by the date's ordinal. |
| `MarketHours.DefaultDay` | core/market_hours/models.py:43-51 | A default day by the clock: pre-open from 9:00 to 9:15, open until 15:30, closed otherwise. |
| `MarketHours.NoMissedSession` | core/market_hours/models.py:90-185 | With weekends enforced, nothing between a closed or weekend instant and its next bell is OPEN. |
| `MarketHours.OverlooksIff` | core/market_hours/models.py:142-185 | For every instant of every status and every calendar that is not always open: some instant before the next bell is OPEN iff the market still opens on a day whose bell has rung or that has none, or a trading weekend day lies ahead. |
| `MarketHours.MissesNothingIff` | core/market_hours/models.py:110-127 | Exactly which calendars keep that promise for all closed and weekend instants. |
| `MarketHours.MissesNothingWhileShutIff` | core/market_hours/models.py:110-127 | Exactly which calendars keep it for all instants that are not OPEN, lunch break and pre-open included. |
| `MarketHours.BellSkipsOwnSession` | core/market_hours/models.py:162-179 | On a weekday of a calendar with enforced weekends, trading is passed over iff the bell has rung and the market opens again that day, whatever the status: at the bell with its PRE_OPEN status, in a lunch break, during the session. |
| `MarketHours.DefaultHoursSkip` | core/market_hours/models.py:43-56 | With the default hours, at 9:15 and at 13:00 the next open is another day's although the market opens again the same day. |
| `Alerting.AlertManager.SendAlertObject` | core/monitoring/alerting.py:293-353 | One call is one step of the reference; it succeeds iff the alert is not suppressed and some channel delivers. |
| `Alerting.StateMatchesLog` | core/monitoring/alerting.py:319-353 | Cache, history, counters and last time are those of the delivered log alone; sent + suppressed + failed is the number of calls. |
| `Alerting.OutcomesAre` | core/monitoring/alerting.py:293-353 | Told by component, category and title instead of keys: an alert that some channel takes is suppressed iff one about the same thing was delivered less than its suppression minutes ago; sent, suppressed and failed count exactly these outcomes, and the history is the last 1000 deliveries. For components and categories without a separator. |
| `Alerting.KeysAgreeIff` | core/monitoring/alerting.py:341-352 | Keys agree iff component, category and title do, when component and category have no separator. |
| `Alerting.KeysCollide` | core/monitoring/alerting.py:341-352 | With a separator in the component alerts about different things share a key. |
| `Alerting.Spacing` | core/monitoring/alerting.py:339-348 | Every delivered alert is its own suppression time away from the previous delivery with its key. |
| `Alerting.PairwiseSpacing` | core/monitoring/alerting.py:339-353 | With a monotone clock this holds of any two deliveries with one key. |
| `Alerting.RecentAlertsExact` | core/monitoring/alerting.py:328-361 | The truncated history answers like the last 1000 hits of the full log iff no dropped alert is recent or everything kept is. |
| `Alerting.RecentAlertsFaithful` | core/monitoring/alerting.py:355-361 | With a monotone clock it always does. |
| `Migration.LastWins` | scripts/migrate_strategies_to_composition.py:72-75 | The renaming loop gives each new key the value of the last item renamed to it. |
| `Migration.MigrateIdempotent` | scripts/migrate_strategies_to_composition.py:58-87 | Migrating twice is migrating once. |
| `Migration.MigratedNames` | scripts/migrate_strategies_to_composition.py:20-39 | The migrated type of each legacy type and the new name of every parameter, name by name. |
| `Migration.MigratedParameters` | scripts/migrate_strategies_to_composition.py:68-82 | The value under every name after migration: the last parameter renamed to it, or the flag. |
| `Migration.MigrateRollbackMigrate` | scripts/migrate_strategies_to_composition.py:112-139 | Migrate, roll back, migrate reproduces the migrated strategy, colliding keys included, iff no parameter of the flag's name is at the mercy of the rollback. |
| `Migration.RollbackUndoesMigration` | scripts/migrate_strategies_to_composition.py:102-139 | Rollback restores type, parameters and their order iff the type is the last legacy name of its target and every parameter name can be given back. |
| `Migration.RestorableNames` | scripts/migrate_strategies_to_composition.py:20-39 | Which names those are for the tables in use. |
| `Migration.RenamesCancel` | scripts/migrate_strategies_to_composition.py:27-39 | Renaming leaves no legacy name behind, and back-and-forth is the identity off the legacy names. |
| `Migration.RenameUndone` | scripts/migrate_strategies_to_composition.py:124-136 | A dictionary renamed one way and back is restored, order included, when no name is lost. |
| `Migration.RenameParameters` | scripts/migrate_strategies_to_composition.py:68-77 | The loop that fills the new dictionary computes the renaming. |
| `Migration.MigrateRow` | scripts/migrate_strategies_to_composition.py:58-87 | Updates a row in place to its migration, and reports whether the type was known. |
| `Migration.RollbackRow` | scripts/migrate_strategies_to_composition.py:112-139 | Updates a row in place to its rollback. |
| `Migration.MigrateStrategyConfigurations` | scripts/migrate_strategies_to_composition.py:41-93 | Every row is migrated and the count is the number of known types. |
| `Migration.RollbackMigration` | scripts/migrate_strategies_to_composition.py:95-144 | Every row is rolled back and the count is the number of reversible types. |
| `Metrics.PercentileIsOrderStatistic` | core/monitoring/metrics.py:219-228 | A value is the percentile iff at most k values lie below it and more than k do not exceed it, k being the percentage of their number rounded down, but at most the last position. |
| `Metrics.PercentilePermutation` | core/monitoring/metrics.py:219-228 | The order of recording does not matter. |
| `Metrics.PercentileMonotone` | core/monitoring/metrics.py:225-228 | Percentiles grow with their rank and lie between minimum and maximum. |
| `Metrics.NothingRecorded` | core/monitoring/metrics.py:221-222 | A metric without recordings reports zero. |
| `Metrics.SortSpec` | core/monitoring/metrics.py:224 | Sorting yields an ascending list that keeps all counts. |
| `Metrics.CollectorFaithful` | core/monitoring/metrics.py:93-153 | Windows are the last 1000 recordings and the average is the exact mean, since the last reset. |
| `Metrics.MetricsCollector.RecordHistogram` | core/monitoring/metrics.py:93-105 | Appends and truncates one histogram. |
| `Metrics.MetricsCollector.RecordTimer` | core/monitoring/metrics.py:107-153 | Appends and truncates one timer, and updates count and average. |
| `Metrics.MetricsCollector.ResetMetrics` | core/monitoring/metrics.py:230-247 | Forgets everything. |
| `Averages.MeanStep` | core/monitoring/metrics.py:148-153 | The incremental formula keeps the exact mean. |
| `Tracing.TraceConservation` | core/streaming/correlation.py:263-298 | Starts equal active + completed + failed, and completed and failed are the successful and unsuccessful ends in the call log; the active counter exceeds the live traces by exactly the restarts of running ids; the average is the exact mean of all durations. |
| `Tracing.LiveMatchesLog` | core/streaming/correlation.py:263-281 | The live map holds exactly the running ids with the time of their last start and their spans since. |
| `Tracing.TraceMetrics.StartTraceMeasurement` | core/streaming/correlation.py:263-271 | Counts a start and overwrites a running trace. |
| `Tracing.TraceMetrics.AddSpan` | core/streaming/correlation.py:273-276 | Counts a span of a running trace only. |
| `Tracing.TraceMetrics.CompleteTrace` | core/streaming/correlation.py:278-298 | Ends a running trace and updates counters and average; unknown ids change nothing. |
| `Lineage.CausePrecedes` | core/schemas/events.py:77-91 | In a log grown by roots and children with fresh ids, ids are unique, every cause is earlier and in the same flow, and it is the parent trace as well. |
| `Lineage.ChainsAreFinite` | core/schemas/events.py:85-91 | No causation chain is longer than the log, and all of it shares correlation, trace and broker. |
| `Lineage.ChainReachesRoot` | core/schemas/events.py:77-91 | Every event's chain ends at a root. |
| `Redaction.RedactionExact` | core/logging/enhanced_logging.py:713-724 | What is left at any path: the first sensitive key ends it with the placeholder, every other path is kept. |
| `Redaction.SensitiveIff` | core/logging/enhanced_logging.py:706-717 | Exactly which keys are sensitive: texts that read like a configured lower-case name in whatever case; a name configured with a capital letter protects nothing. |
| `Redaction.NothingLeaks` | core/logging/enhanced_logging.py:717-718 | Under a sensitive key, at any depth of dictionaries and lists, there is the placeholder or nothing. |
| `Redaction.LeavesKept` | core/logging/enhanced_logging.py:719-724 | Scalars off the sensitive paths are untouched. |
| `Redaction.RedactIdempotent` | core/logging/enhanced_logging.py:713-726 | Redacting twice is redacting once. |
| `Topics.BrokerRecovered` | core/schemas/topics.py:129-182 | The broker is recovered from every topic of both brokers and from their dead-letter topics. |
| `Topics.BrokerOfTopicIs` | core/schemas/topics.py:156-191 | A topic belongs to a broker iff it starts with the broker's name and a dot; all other names are of an unknown broker. |
| `Topics.DlqKeepsBroker` | core/schemas/topics.py:108-111 | The suffix changes the broker of no dotted topic. |
| `Topics.DlqChangesBrokerIff` | core/schemas/topics.py:156-191 | Of all names it changes exactly the bare broker names. |
| `Topics.TradingSignalKeyInjective` | core/schemas/topics.py:202-205 | Signal keys are equal iff strategy and instrument are, for all strategy ids. |
| `Topics.OrderKeyInjective` | core/schemas/topics.py:207-210 | Order keys are injective for all strategy ids when the timestamps have equally many separators, as texts of one format do, and for ids without a separator whatever the timestamps. |
| `Topics.OrderKeyCollides` | core/schemas/topics.py:207-210 | Timestamp texts with different numbers of separators can share a key. |
| `Topics.ServiceDedupKeyInjective` | core/streaming/deduplication.py:166-183 | Namespaced marks are equal iff service and event id are, for service names without a separator. |
| `Topics.DedupKeysMeetIff` | core/streaming/deduplication.py:50-76 | Plain and namespaced marks meet only for a service called like the plain prefix. |
| `Topics.NatTextValue` | core/schemas/topics.py:197-205 | Instrument tokens are written in decimal: the text stands for the number. |
| `PaperTrading.FillIsCovered` | services/paper_trading/service.py:212-391 | A fill is covered by the holding sold or the cash paid, and lies between zero and the order iff the order is not negative. |
| `PaperTrading.FillTerms` | services/paper_trading/service.py:326-344 | The price of a fill is the market price moved by the slippage against the taker, and the fees are the commission on the notional. |
| `PaperTrading.FilledExactly` | services/paper_trading/service.py:212-391 | An order that is not immediate-or-cancel is filled with its whole quantity iff it is within the guardrails, the market allows it, and money, cap and holding suffice; a day's limit order that the market does not allow is filled with nothing; an untriggered day's stop waits. |
| `PaperTrading.ImmediateFillsMost` | services/paper_trading/service.py:345-391 | An immediate-or-cancel order is filled iff one unit fits, and then with as many as fit. |
| `PaperTrading.GuardrailsAre` | services/paper_trading/service.py:212-236 | The guardrails, setting by setting. |
| `PaperTrading.TradingIsSound` | services/paper_trading/service.py:185-460 | Over every run of orders none of which is harmful, cut and interrupted by failing sends in any way: no account is overdrawn, no position is short, the books are those of one fill per order of what was sent, and realized profit minus book value is the money that flowed. |
| `PaperTrading.OrderKeepsBooksIff` | services/paper_trading/service.py:212-410 | For all settings, prices and quantities: an order keeps all non-negative books non-negative, however it is cut and wherever its sends stop, iff it is not harmful, that is, unless it passes the guards that do not look at the books and is a purchase of a negative quantity or a sale whose quantity and price have opposite signs. |
| `PaperTrading.OrderKeepsBooks` | services/paper_trading/service.py:419-460 | One such order: the books are those of one fill of what was sent, they stay non-negative, and profit minus book value moves by the money that flowed. |
| `PaperTrading.WholeIffAllSent` | services/paper_trading/service.py:419-460 | The position is that of the whole fill iff every part was sent. |
| `PaperTrading.HarmfulJudged` | services/paper_trading/service.py:212-391 | The guards of a harmful order decide exactly whether it does harm on an empty account with a sufficient holding. |
| `PaperTrading.RepeatIgnoredIff` | services/paper_trading/service.py:155-167 | A signal that arrives again changes nothing iff its key is among the last 1999 admitted ones, so an order that was interrupted stays partly filled. |
| `PaperTrading.AdmittedKeys` | services/paper_trading/service.py:155-167 | The keys of the turns that are let through are the reference's log of admitted keys. |
| `PaperTrading.NonNegativeOrdersHarmless` | services/paper_trading/service.py:326-391 | With non-negative prices and commission and slippage within 100 %, no order for a non-negative quantity is harmful. |
| `PaperTrading.TradingBalances` | services/paper_trading/service.py:419-460 | Over the same runs: cash is the starting cash plus all money that flowed, and realized profit is a position's flow plus the cost of what is still held. |
| `PaperTrading.BooksBalance` | services/paper_trading/service.py:586-612 | From any books and for any fills, negative quantities included: profit minus book value grows by the money that flowed, minus the book value a fill drops by selling beyond the holding or by a purchase that leaves nothing held. |
| `PaperTrading.CashBalances` | services/paper_trading/service.py:595-608 | Cash moves by proceeds minus fees only. |
| `PaperTrading.TwoFillsAsOne` | services/paper_trading/service.py:586-612 | Two fills of one order move the books like one fill of both. |
| `PaperTrading.SplitInvisible` | services/paper_trading/service.py:393-410 | However an order is split into partial fills, the books end up the same. |
| `PaperTrading.SplitFill` | services/paper_trading/service.py:399-410 | The random split yields the wanted number of parts, each at least one unit, that add up to the whole: a cut as the runs above take them. |
| `PaperTrading.NegativeQuantityGoesShort` | services/paper_trading/service.py:230-236 | A negative validated quantity passes the guardrails, is filled as a purchase and leaves a short position. |
| `PaperTrading.NegativeSaleOverdraws` | services/paper_trading/service.py:378-391 | As a sale it is filled too, adds to the position and takes its net price out of the account. |
| `PaperTrading.Portfolio.ApplyFill` | services/paper_trading/service.py:586-612 | One fill moves cash, position and realized profit of its own account and position as the specification does. |
| `PaperTrading.Portfolio.FillOrder` | services/paper_trading/service.py:419-460 | The loop publishes and books part by part, and books exactly the parts whose send succeeded. |
| `Idempotence.SeenKeys.constructor` | services/paper_trading/service.py:50-52 | The cache starts empty. |
| `Idempotence.SeenKeys.Admit` | services/paper_trading/service.py:155-166 | A known key is ignored; a new one is remembered and, when the queue is full, the oldest is dropped from queue and set. |
| `Idempotence.StateMatchesLog` | services/paper_trading/service.py:155-166 | Over every stream, the cache knows exactly the last 1999 admitted keys, so exactly those repeats are ignored. |
| `Idempotence.RepeatsSpaced` | services/paper_trading/service.py:155-166 | A key is admitted again only after 1999 other admissions. |

## Left out

- Kafka, Redis, PostgreSQL, FastAPI and OpenTelemetry clients: only the effect of each command used is modelled; whether a call succeeds, what is delivered and where a process dies are arguments.
- Timezones: calendar statements are over wall-clock dates and times of day; holidays (`enforce_holidays`) are never consulted by the code.
- Float and decimal rounding: times are exact integers, averages, prices and quotients exact reals.
- Delivery: one target topic and one consumer process at a time; whether the error handler retries or dead-letters is left to the environment there, since that decision is the subject of `StreamProcessing`.
- Reliability: message values that are not dictionaries, which end the flow every time, the size at which the cache evicts, rebalances in the middle of a message, and layers without a deduplicator or error handler.
- DlqReplay: consumer-group rebalances during a replay and records that are not valid JSON other than by ending the run.
- DeadLetters.ReplayableIff: the texts of dictionaries as keys or ids are left abstract, and a topic that is true but not text counts as unreadable, although a dry run would print it.
- DeadLetters: the producer's refusal to send untyped data to topics outside the market feed, and the fields of `failure_info`.
- StreamProcessing: rebalances that move only some partitions, classification of exceptions by name and message text, retry delays, statistics, and the backoff of the outer loop; an error's class is an argument.
- RateLimiting.RedisExact: stated for a period of zero or more seconds (`RedisNegativePeriod` has the others), and for the calls that reach Redis.
- RateLimiting: extraction of the client address and the exempted paths.
- PipelineMetrics: other writers of the same keys (the stream processor's own metrics, core/streaming/clients.py:549-600), the payload beside the time stamp, strategy counts and the `last_activity` keys, which no verdict reads; a failed increment or reset is a call that was not made, a failed health read reports unhealthy.
- Alerting: hooks, severities and the channels themselves; what a channel does with an alert is an argument.
- Metrics: counters, gauges, rates, persistence, tags in metric names, and negative percentiles.
- Redaction: lower-casing outside ASCII.
- Lineage: the encoder of envelopes and the generation of ids; freshness of ids is assumed.
- PaperTrading: triggering of queued stop orders, bracket exits (they publish an order-filled event and then call the portfolio update without its fees argument, services/paper_trading/service.py:761-769, so the books miss a published fill), profit snapshots, the random fraction of an immediate-or-cancel order, which no order reaches, and the simulated latency.
- The manager of per-service deduplicators: only its keys are modelled; its statistics are never updated by the code.
- Stage validators, health checks, topic bootstrapping, routers, dashboards, dependency injection, settings and seeders: plumbing, probes or simple counts.
