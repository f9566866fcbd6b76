# A verified model of the payment processor

The payment worker takes orders from Kafka, pays them from accounts kept in Postgres under a Redis lock,
and sends what it could not pay round a retry topic until a limit is reached. The order API admits the
orders. This project models the parts of the two services in which a payment can be lost, doubled or
blocked, and proves over all runs when it is not.

The centre is a transition system (`Pipeline.dfy`): the two consumers with their semaphores, any number of
goroutines inside `ProcessPayment`, the unbuffered retry channel with its single reader, the account lock
with its 20 s expiry, transactions with pending writes, an aborted flag and row locks, and the pool of
writer connections. Every answer of Redis, Postgres, Kafka, the codec, the fraud service and the gateway is
part of a step, so a statement about all runs covers every placement of faults and every interleaving.
The facts below are modelled as the code has them:

- deferred calls run last in, first out: the lock is deleted before the transaction is committed;
- a failed commit is logged and does not change what `ProcessPayment` returns;
- a failed `Begin` returns with the lock still set;
- the balance is read outside the transaction, from a replica if one is configured, otherwise with a second
  connection of the writer pool;
- a retryable failure both sends the job to the channel and returns an error, so the job also becomes a dead
  letter;
- a locked account and an unavailable fraud service write the status before they send; a retryable settlement
  sends first.

`PaymentProcessor.dfy` writes `ProcessPayment` out with the functions it calls, on a lock table, tables, a
transaction and a channel of its own, branching on what the calls return; a ghost run is carried along, and the
state the call leaves is proved to be the state in which that run ends. `Commits.dfy`, `AverageCache.dfy`,
`RateLimit.dfy` and `OrderApi.dfy` hold the other objects that are updated in place, each proved against a function
of its old state; `Backoff.dfy`, `Money.dfy` and `Averages.dfy` are arithmetic and text.

## What the proofs found

- **Conservation** needs three hypotheses on the run, and for each there is a run that obeys the other two and loses
  a payment. Without any hypothesis the books balance exactly as long as no commit carries a debit computed from an
  outdated row.
- **The lock** excludes exactly as long as nobody wins it over a section that has outlived the 20 s.
- **Deadlock.** For every valid configuration, runs of distinct orders never deadlock if and only if the pool is
  larger than both semaphores together. The shipped development configuration (20 connections, 20 + 5 slots) and
  the shipped chart (50 connections, 500 + 500 slots) are both on the wrong side. A message that is delivered
  twice can deadlock every configuration with at least two connections.
- **Debits.** Debits of an order never exceed its deliveries, with no assumption at all.
- **Answers.** A success is final, and an order whose copies are gone is answered unless a fault used up one of its
  own copies. Both hold for all runs in which no settlement asks for a retry, which the program's own settlement
  never does on a live context. A gateway that did would meet a branch that sends before it writes; then a success
  survives exactly if no status of the order is still pending.
- **Commit manager.** The watermark starts at 0, so offset 0 counts as covered without an acknowledgement, and a
  partition that is resumed above offset 1 never commits again. A failed commit forgets the offsets it scanned;
  the watermark is right again exactly when each of them was acknowledged once more.
- **Retries.** No retry runs before its jittered backoff has passed since it was published; the retry count of a fresh
  order is the number of attempts made on it; and the dead-letter topics hold exactly the failures, with contents.
- **Limiter.** How many calls a lifetime of the counter admits is known exactly. Every counted call pushes the expiry forward, so a busy counter never resets.
- **Backoff** panics when the product overflows to a small or negative duration.
- **Averages.** The new average goes to the cache before the commit; the copies still agree after a rollback exactly
  when the amount was close enough to the average, with a tie at the bound.
- **Order API.** Keys are unique exactly when no request was admitted whose key its reader had not yet seen. An empty
  balance column reads as 0 in the worker but does not decrypt in the order API.

Amounts and balances are whole cents, since every stored amount was printed with two decimals; times are
nanoseconds; averages are exact rationals.

## Model

| member | source | states |
|---|---|---|
| `PipelineLedger.Conservation` | services/payment-worker/internal/services/payment_service.go:73-165 | In every interleaving in which nobody wins a lock over a section that has outlived the expiry, balances are read from the latest committed row and none is read between a release of the lock and its commit: every account holds its initial balance minus the committed payments, its `order_count` has grown by their number, and no committed balance was ever negative |
| `PipelineLedger.ConservedIffNoStaleCommit` | services/payment-worker/internal/services/payment_service.go:73-165 | Over any run, with no hypothesis on timing, the books balance at every moment if and only if no step commits a debit computed from a row that is no longer the committed one |
| `PipelineLedger.ConservedStep` | services/payment-worker/internal/services/payment_service.go:253-288 | The same equivalence for a single step of any goroutine, the channel reader or the clock |
| `PipelineLedger.RunKeepsSolvent` | services/payment-worker/internal/services/payment_service.go:184-207 | Committed balances stay non-negative in every run, stale reads and expired locks included |
| `PipelineRuns.ReadBeforeCommitLosesUpdate` | services/payment-worker/internal/services/payment_service.go:85-100 | The lock is deleted before the commit: a run that obeys the other two hypotheses at every step and loses a payment because a balance is read in between |
| `PipelineRuns.StaleReplicaLosesUpdate` | services/payment-worker/internal/services/payment_service.go:188-206 | A run that obeys the other two hypotheses at every step and loses a payment because a replica returns an older row |
| `PipelineRuns.ExpiredLockLosesUpdate` | services/payment-worker/internal/services/payment_service.go:73-100 | A run that obeys the other two hypotheses at every step and loses a payment because a lock is won over a section that has outlived its 20 s |
| `PipelineLock.ExclusiveIffNoWinOverExpired` | services/payment-worker/internal/services/payment_service.go:73-100 | In every run: at most one worker per account is between winning and deleting the lock at every moment, if and only if no step wins a lock while another section of that account has outlived the expiry |
| `PipelineLock.MutualExclusion` | services/payment-worker/internal/services/payment_service.go:73-100 | In particular, sections that are all shorter than the expiry exclude each other at every moment |
| `PipelineLock.OnlyWinnersDelete` | services/payment-worker/internal/services/payment_service.go:94-100 | Any step that removes the key of an account is taken by a worker that won that lock |
| `PipelineLock.AbandonedLockExpires` | services/payment-worker/internal/services/payment_service.go:74-84 | From any reachable state, a lock left behind by a failed `Begin` or a failed `Del` is free once the clock has advanced by 20 s and nobody else took it |
| `PipelineCopies.DebitsWithinPublished` | services/payment-worker/internal/services/payment_service.go:94-164 | In every run, with no assumption at all: the debits of an order and its live copies together never exceed the copies of it that were published |
| `PipelineCopies.AtMostOneDebit` | services/payment-worker/internal/services/payment_service.go:94-164 | If each order is published once, an order has at most one live copy, at most one debit of it ever commits, and after that debit no live copy is left, in every run |
| `PipelineLapses.TwoDeliveriesDebitTwice` | services/payment-worker/internal/services/payment_service.go:94-164 | A run in which one order delivered twice is debited twice |
| `PipelineCopies.DebitAndStatusAtomic` | services/payment-worker/internal/services/payment_service.go:85-163 | In every history, wherever SQL errors, aborted transactions and failed commits fall, an order with a row has been debited exactly as often as it was set to success; without a row it is never set to success |
| `PipelineFinality.SuccessIsFinal` | services/payment-worker/internal/services/payment_service.go:168-223 | In every run in which no settlement asks for a retry, faults anywhere and no hypothesis on timing: an order set to success has no live copy and keeps the success for good |
| `PipelineFinality.SuccessSurvivesIff` | services/payment-worker/internal/services/payment_service.go:168-234 | From any reachable state with a success, whatever the gateway answers: every continuation keeps it if and only if no worker on the order has a status pending or still to write |
| `PipelineFinality.SuccessKeptIfStatusFirst` | services/payment-worker/internal/services/payment_service.go:172-176 | Whatever the gateway answers, a success is kept in runs in which each attempt has written its status before the next copy of its order is at work |
| `PipelineCopies.StepKeepsRowsLocked` | services/payment-worker/internal/services/payment_service.go:226-234 | No step lets two open transactions hold the row of one order |
| `PipelineCopies.RowsNeverShared` | services/payment-worker/internal/services/payment_service.go:226-282 | In every run no two open transactions hold the row of one order or of one account |
| `PipelineLapses.LateStatusOverwritesSuccess` | services/payment-worker/internal/services/payment_service.go:168-181 | What this branch would do with a gateway that asks for a retry on a live context: it sends before it writes, and the status of the first attempt overwrites the success of the second; the settlement of the program itself asks for a retry only on a cancelled context |
| `PipelineRetries.RetryCountsBounded` | services/payment-worker/internal/services/kafka_retry_handler.go:186-209 | Every message on the retry topic, fetched or in a retry worker carries a count between 1 and the maximum, so the limit check of the retry consumer never fires on them, in any run and whatever counts orders arrive with |
| `PipelineRetries.AboveLimitNeverAttempted` | services/payment-worker/internal/services/kafka_retry_handler.go:286-289 | Whatever the retry topic holds at the start, no message above the limit is ever attempted, in any run |
| `PipelineTiming.PublishDelays` | services/payment-worker/internal/services/kafka_retry_handler.go:192-215 | A publish appends exactly the job of the channel reader, held back from the present time by at least min(b - b/8, max) and at most min(b + b/8, max), b being base times 2^(count - 1) |
| `PipelineTiming.RetriesWaitTheirBackoff` | services/payment-worker/internal/services/kafka_retry_handler.go:291-300 | In every run no retry goroutine asks for the lock, holds it or goes on before that least backoff has passed since its job was published, and what waits in the retry topic is held back by no more than the longest |
| `PipelineAttempts.AttemptsAreTheBegun` | services/payment-worker/internal/services/payment_service.go:71-78 | In every run the attempts recorded for an order are exactly the goroutines that asked for its lock |
| `PipelineAttempts.RetryCountIsAttempts` | services/payment-worker/internal/services/kafka_retry_handler.go:186-194 | In every run of distinct, fresh orders the retry count of a job in the retry topic or with the channel reader is exactly the number of attempts made on its order, and one less for a goroutine that has begun its own |
| `PipelineAttempts.GivenUpAfterAllAttempts` | services/payment-worker/internal/services/kafka_retry_handler.go:369-376 | In such a run an order is given up only after exactly `MaxRetryCount` + 1 attempts |
| `PipelineControl.CapacitiesRespected` | services/payment-worker/internal/services/kafka_order_handler.go:120-153 | In every reachable state the two semaphores and the writer pool are within capacity, each counter equals the number of goroutines that hold a slot or a connection, and every goroutine satisfies the invariant of its program point |
| `PipelineControl.ActKeepsOk` | services/payment-worker/internal/services/payment_service.go:71-165 | Every statement of `ProcessPayment` and of the two message handlers, with every answer of the world, keeps the invariant that ties the program point to lock, transaction, accepted row and send |
| `PipelineMoves.StepMoves` | services/payment-worker/internal/services/kafka_retry_handler.go:175-328 | For any weight on jobs and goroutines, a step changes the weight of the whole pipeline by exactly what enters minus what leaves one or two places |
| `PipelineProgress.DeadlockFree` | services/payment-worker/internal/services/payment_service.go:80-97 | If the pool exceeds both semaphores together and each order is published once, every reachable state with unfinished work has an enabled step that needs no fault, although workers hold a connection and row locks while blocked on the unbuffered channel, whose reader needs a connection and a row itself |
| `PipelineProgress.BusyMoves` | services/payment-worker/internal/services/kafka_retry_handler.go:180-190 | The same step, constructed from the state |
| `PipelineDeadlock.DeadlockFreeIffPoolExceedsSlots` | services/payment-worker/internal/services/kafka_retry_handler.go:369-386 | For every valid configuration: no run of distinct orders reaches a state with unfinished work and no faultless step, now or after any delay, if and only if the pool is larger than both semaphores together |
| `PipelineDeadlock.TightPoolDeadlocks` | services/payment-worker/internal/services/kafka_retry_handler.go:175-190 | For every valid configuration with a pool no larger than both semaphores, a run of fresh, distinct orders into deadlock, for any capacities, retry limit and backoff |
| `PipelineDeadlock.DuplicateDeadlocks` | services/payment-worker/internal/services/payment_service.go:94-99 | With one order delivered twice a run deadlocks whatever the capacities (two connections or more): the channel reader waits for a row lock of the worker that waits for the channel reader |
| `PipelineDeadlock.ReadersWait` | services/payment-worker/internal/services/payment_service.go:188 | Without a replica, goroutines that all hold a connection and wait for a second one, for the balance or for an average that is not cached, never go on |
| `PipelineDeadlock.EverybodyWaits` | services/payment-worker/internal/services/payment_service.go:94-99 | A state in which every goroutine waits for the channel reader, and the reader for a connection or for a row one of them holds, admits no faultless step ever again |
| `PipelineTermination.StepBurns` | services/payment-worker/internal/services/kafka_retry_handler.go:186-194 | The measure (retry budget before stage of the attempt, over all jobs) falls at every step but the passing of time |
| `PipelineTermination.RunsAreFinite` | services/payment-worker/internal/services/kafka_retry_handler.go:261-328 | However the goroutines interleave and whatever fails, a run takes at most a fixed number of steps per order |
| `PipelineTermination.Completes` | services/payment-worker/internal/services/kafka_order_handler.go:120-214 | From every reachable state some faultless continuation disposes of every message |
| `PipelineTermination.AttemptsBounded` | services/payment-worker/internal/services/kafka_retry_handler.go:186-189 | Each order is attempted at most `MaxRetryCount` + 1 times in every run |
| `PipelineLetters.LettersAreTheFailures` | services/payment-worker/internal/services/kafka_order_handler.go:182-205 | In every run and for every weight on jobs, so with contents and multiplicity: the letters of the orders topic are exactly the jobs of the order goroutines that ended with an error or were rejected; those of the retry topic are exactly those of the retry goroutines, and the jobs sent on with no retry left that the channel reader has dealt with |
| `PipelineLetters.DeadLettersBounded` | services/payment-worker/internal/services/kafka_retry_handler.go:369-400 | Each order is handed to the dead-letter topics at most `MaxRetryCount` + 2 times in every run |
| `PipelineAnswers.AnsweredIffNeverLost` | services/payment-worker/internal/services/payment_service.go:71-181 | In every run in which no settlement asks for a retry, with faults anywhere: once an order has no live copy, and at the latest when all work is finished, it shows success or failure if and only if no fault (lock call, `Begin`, commit, final status or publish) used up one of its own copies; while it has a live copy it shows neither |
| `PipelineAnswers.LastCopy` | services/payment-worker/internal/services/kafka_retry_handler.go:186-215 | The step that uses up a copy of an order writes its answer if and only if it is not such a fault |
| `PipelineAnswers.AnswerStays` | services/payment-worker/internal/services/payment_service.go:226-234 | An order with no live copy and no pending status keeps its status at every step, faults included |
| `PipelineLapses.BeginFaultForgetsOrder` | services/payment-worker/internal/services/payment_service.go:80-84 | A concrete run with one failed `Begin` that finishes with the order pending for good |
| `PaymentProcessor.PaymentProcessor.ProcessPayment` | services/payment-worker/internal/services/payment_service.go:71-165 | The call, on its own lock keys, tables, transaction and channel, ends where a run of the transition system ends in which only this goroutine moved. If it returns: nil exactly when lock, balance, verdict, settlement and debit all succeed; the job is with the channel reader exactly in the three retryable cases; the lock key is left behind exactly when `Begin` or `Del` failed; the connection is given back; and debit and success status are committed together or not at all. It waits only for a connection, a row or the channel reader that is taken, and then nothing is committed |
| `PaymentProcessor.PaymentProcessor.Open` | services/payment-worker/internal/services/payment_service.go:73-84 | Lock and transaction: who has won, what a failed call leaves behind, and when it waits for a connection |
| `PaymentProcessor.PaymentProcessor.CheckAccountBalance` | services/payment-worker/internal/services/payment_service.go:184-207 | Goes on exactly with the row that is read if it covers the amount; otherwise the order fails, or the call waits |
| `PaymentProcessor.PaymentProcessor.HandleFraudResult` | services/payment-worker/internal/services/payment_service.go:209-223 | Goes on exactly for a clean verdict; an unavailable service writes the status and then sends, a suspicious order fails |
| `PaymentProcessor.PaymentProcessor.HandleTransactionResult` | services/payment-worker/internal/services/payment_service.go:168-181 | Goes on exactly for a settled payment; a retryable one sends and then writes, a declined one fails |
| `PaymentProcessor.PaymentProcessor.UpdateOrderStatus` | services/payment-worker/internal/services/payment_service.go:226-234 | The status is pending afterwards, or the transaction aborted; it waits exactly for a row that another transaction keeps |
| `PaymentProcessor.PaymentProcessor.Deferred` | services/payment-worker/internal/services/payment_service.go:85-100 | The lock is deleted, if it was won, and then the transaction closed: what the tables hold is what was pending, unless it was aborted or the commit failed |
| `PaymentProcessor.CommitSettles` | services/payment-worker/internal/services/payment_service.go:158-163 | What the statements leave pending is, once committed, the debit with the success status, or no debit and at most a retrying or failed status |
| `Commits.CommitManager.constructor` | pkg/kafka/commit_manager.go:25-32 | Every partition starts with watermark 0 and nothing remembered |
| `Commits.CommitManager.Ack` | pkg/kafka/commit_manager.go:34-79 | Asks for the end of the acknowledged stretch after the watermark, moves the watermark only if the broker accepts, forgets the stretch in either case, and touches no other partition |
| `Commits.CommitManager.Advance` | pkg/kafka/commit_manager.go:52-60 | The loop stops at the last offset of the unbroken acknowledged stretch and deletes exactly that stretch |
| `Commits.ScanStretch` | pkg/kafka/commit_manager.go:52-60 | The stretch is unbroken and cannot be extended |
| `Commits.CommitsLongestPrefix` | pkg/kafka/commit_manager.go:47-72 | In every run without a failed commit, duplicates included, the watermark is the largest n with 1..n all acknowledged, and above it exactly the acknowledged offsets are remembered |
| `Commits.OrderIrrelevant` | pkg/kafka/commit_manager.go:47-72 | Two runs that acknowledge the same offsets, in any order and with any repetition, end with the same watermark and the same remembered offsets above it |
| `Commits.CommitSafety` | pkg/kafka/commit_manager.go:52-64 | Failures included: when offset n + 1 is asked for, every offset 1..n was acknowledged |
| `Commits.CommittedOffsetsIncrease` | pkg/kafka/commit_manager.go:62-72 | The offsets committed on a partition strictly increase, in every run |
| `Commits.FailedCommitForgets` | pkg/kafka/commit_manager.go:52-71 | A failed commit leaves the watermark, forgets exactly the offsets just scanned, and nothing is committed until the offset after the watermark is acknowledged again |
| `Commits.BlockedUntilNext` | pkg/kafka/commit_manager.go:53-62 | From any state, acknowledgements that leave out the offset after the watermark commit nothing |
| `Commits.HealsIffReacked` | pkg/kafka/commit_manager.go:52-72 | After a failed commit, acknowledgements whose commits succeed restore the longest acknowledged prefix if and only if they repeat every forgotten offset, in any order |
| `Commits.LongestPrefixIffNothingMissing` | pkg/kafka/commit_manager.go:47-72 | In every run, whatever commits fail: the watermark is the longest acknowledged prefix if and only if every offset scanned by a failed commit was acknowledged again, and above it exactly the acknowledged offsets that are not missing are remembered |
| `Commits.OffsetZeroUnchecked` | pkg/kafka/commit_manager.go:52 | What a commit covers is all acknowledged if and only if offset 0 is: the prefix starts at 1 |
| `Commits.OffsetZeroSkipped` | pkg/kafka/commit_manager.go:52 | Acknowledging offset 1 alone asks for offset 2 |
| `Commits.ResumedPartitionNeverCommits` | pkg/kafka/commit_manager.go:52-62 | A manager whose partition is resumed above offset 1 never commits anything |
| `Commits.CommitsIffFirstOffset` | pkg/kafka/commit_manager.go:52-72 | Without failed commits something is committed if and only if offset 1 was acknowledged |
| `Consumer.NothingInFlightIsSkipped` | services/payment-worker/internal/services/kafka_order_handler.go:170-214 | In every run, cancelled or not and whatever commits fail: below a committed offset every message from 1 on was processed or handed to a dead-letter topic, never abandoned on a cancelled path; nothing in flight or waiting for a slot lies below it; goroutines never outnumber the semaphore |
| `Consumer.StepKeepsOrdered` | services/payment-worker/internal/services/kafka_retry_handler.go:238-328 | The invariant behind it, for each step of the reader and of the goroutines |
| `Consumer.WatermarkIsWhatWasDisposed` | services/payment-worker/internal/services/kafka_order_handler.go:170-214 | In every run, cancelled or not and whatever commits fail: the watermark of a partition is the largest n such that the messages 1 to n were all processed or dead-lettered, if and only if no failed commit has left a gap; the broker holds the offset after it as soon as it is above 0 |
| `Consumer.EverythingDisposedIsCommitted` | services/payment-worker/internal/services/kafka_retry_handler.go:261-328 | In every run whose commits are accepted the broker holds exactly the offset after the longest prefix that was processed or dead-lettered |
| `Consumer.AbandonedOnlyIfCancelled` | services/payment-worker/internal/services/kafka_order_handler.go:170-175 | In every run a message is abandoned, or the reader stops, only once the context is cancelled |
| `Consumer.OffsetZeroIsSkipped` | services/payment-worker/internal/services/kafka_order_handler.go:120-153 | A concrete run in which the broker holds offset 2 while message 0 is in flight |
| `Backoff.DelayBounds` | pkg/utils/backoff.go:20-32 | Without int64 overflow and with a base of at least 4 ns, whatever is drawn the delay is within b - b/8 .. b + b/8 before the cap, at most the cap after it, and nothing panics |
| `Backoff.PanicsIffTiny` | pkg/utils/backoff.go:20-23 | `rand.Int63n` panics if and only if the product, as an int64 holds it, is below 4 |
| `Backoff.OverflowPanics` | pkg/utils/backoff.go:20-23 | A base of 2^60 ns panics at the fourth retry |
| `Backoff.NominalsDouble` | pkg/utils/backoff.go:19-20 | The undithered delay is the base for the first attempt and exactly doubles from each attempt to the next |
| `Backoff.FiveNominals` | pkg/utils/backoff.go:19-20 | For the five attempts a configuration allows: 1, 2, 4, 8 and 16 times the base |
| `Backoff.NoRetryNoDelay` | pkg/utils/backoff.go:15-17 | No delay without a retry |
| `Backoff.WrapsModulo` | pkg/utils/backoff.go:20-24 | The arithmetic is that of int64: in range, and exact modulo 2^64 |
| `Backoff.DelaysNeverDecrease` | pkg/utils/backoff.go:14-32 | A later attempt never waits less, whatever the two draws |
| `Backoff.TotalBackoffBounded` | services/payment-worker/internal/services/kafka_retry_handler.go:193-194 | The backoff of a job over its life is between 0 and the number of retries times the cap |
| `Money.ParsePrint` | pkg/utils/utils.go:46-53 | Every printed decimal parses back to itself, sign and number of places included |
| `Money.PrintedForm` | pkg/utils/utils.go:50-53 | A minus sign exactly for a negative number, a whole part without leading zero unless it is 0, a point, and exactly the asked-for places |
| `Money.StoredAmountIsNearestCent` | pkg/utils/security_utils.go:76-85 | Printing, encrypting, decrypting and parsing an amount gives it rounded to the nearest cent |
| `Money.CentsStable` | pkg/utils/utils.go:50-53 | Rounding an amount of whole cents changes nothing |
| `Averages.AverageDrift` | services/payment-worker/internal/services/payment_service.go:263-276 | After n successful orders from a fresh account, the stored average differs from the true mean by at most 0.0025 (n + 1) less 0.005/n |
| `Averages.AverageWithinOrders` | services/payment-worker/internal/services/payment_service.go:263-276 | The stored average lies between the smallest and the largest order amount |
| `AverageCache.AccountAverageTracksMean` | services/payment-worker/internal/services/payment_service.go:263-285 | Over every serial run of payments, rollbacks, fraud checks and cache expiries from a fresh account, the row has counted the committed payments, its average is within 0.0025 (n + 1) of their mean and between the smallest and the largest |
| `AverageCache.Account.UpdateBalanceAvgCount` | services/payment-worker/internal/services/payment_service.go:253-288 | The cache takes the new average at once; balance, count and average change only if the transaction commits |
| `AverageCache.AgreesIffNear` | services/payment-worker/internal/services/payment_service.go:278-285 | Over every serial run of payments that commit or are rolled back, fraud checks and expiries: the copies agree throughout if every rolled-back amount x has 20000 |x - average| < 10001 (count + 1), and only if none is above that bound |
| `AverageCache.TieGoesEitherWay` | services/payment-worker/internal/services/payment_service.go:278-285 | At the bound itself, both roundings of the copy are possible, one agreeing and one not |
| `AverageCache.CacheAgrees` | services/payment-worker/internal/services/fraud_detection_service.go:160-193 | Over every such run whose rolled-back amounts, if any, are below the bound, a cached average is within 0.0050005 of the stored one, from a miss or from an update |
| `AverageCache.ServedDeviationClose` | services/payment-worker/internal/services/fraud_detection_service.go:160-193 | Over every such run, the deviation served from the cache differs from the one from the stored average by at most amount 0.0050005 / (cached stored) |
| `AverageCache.Account.ComputeDeviation` | services/payment-worker/internal/services/fraud_detection_service.go:160-193 | The copy answers if it is there and is left alone, else the stored average is copied exactly; the result is 0 for a copy that is not positive and relative to it otherwise; while the copies agree it is that close to the deviation from the stored average |
| `AverageCache.ExpiryRefreshes` | services/payment-worker/internal/services/fraud_detection_service.go:163-175 | Once the entry has expired the next fraud check copies the stored average exactly, whatever was cached |
| `AverageCache.ServedIs` | services/payment-worker/internal/services/fraud_detection_service.go:176-192 | A copy that is not positive serves 0; otherwise the deviation times the copy is the distance of the amount from it |
| `AverageCache.DeviationsClose` | pkg/utils/security_utils.go:87-89 | Two positive averages within e of each other give deviations within amount e over their product |
| `RateLimit.DistributedLimiter.Allow` | pkg/ratelimit.go:41-68 | Without a rate every call is admitted, on a local refusal or none; a Redis error admits; an answered call raises the counter, or starts it at 1, pushes its expiry to now + ttl, and is admitted if and only if the count is at most the burst |
| `RateLimit.LifetimeBound` | pkg/ratelimit.go:51-67 | From any counter, within one lifetime the calls admitted are at most the room left plus the Redis errors |
| `RateLimit.BurstPerLifetime` | pkg/ratelimit.go:51-67 | For any interleaving of replicas, from one reset to the next at most the burst plus the Redis errors are admitted |
| `RateLimit.LifetimeExact` | pkg/ratelimit.go:51-67 | From any counter, within one lifetime exactly the Redis errors are admitted, and of the answered calls those among the first that use up the room left |
| `RateLimit.BurstExact` | pkg/ratelimit.go:51-67 | From one reset to the next exactly the Redis errors and the answered calls among the first burst of counted ones are admitted |
| `RateLimit.AdmitsWhileRoom` | pkg/ratelimit.go:51-67 | If no failed call was counted, the admitted calls are the errors plus the minimum of the room and the answered calls |
| `RateLimit.LocalDecides` | pkg/ratelimit.go:42-49 | A limiter without a rate admits every call and one that refuses locally none, without touching the counter |
| `RateLimit.BusyLimiterNeverRecovers` | pkg/ratelimit.go:53-55 | If counted calls keep arriving closer together than the expiry the counter never resets, and after the burst exactly the calls Redis failed to answer are admitted |
| `RateLimit.ResetsIffQuiet` | pkg/ratelimit.go:53-55 | Between answered calls the counter restarts if and only if the gap is at least the expiry |
| `OrderApi.OrderService.CreateOrder` | services/order-api/internal/services/order_service.go:48-125 | Accepted if and only if the key is set and not seen, the decrypted balance covers the amount, no call fails and the commit is acknowledged; then exactly one row, and exactly one job if Kafka takes it, with the key, the account and the nearest-cent amount; a rolled-back request leaves nothing |
| `OrderApi.AdmittedIff` | services/order-api/internal/services/order_service.go:61-122 | The same for the specification: stored, accepted and published, each if and only if its condition holds |
| `OrderApi.RefusedBecause` | services/order-api/internal/services/order_service.go:63-110 | Each reason for a refusal, if and only if its condition holds |
| `OrderApi.TopicListsTheAccepted` | services/order-api/internal/services/order_service.go:117-122 | Over any serial run the topic lists one job for each accepted and published request, in order, and nothing else |
| `OrderApi.Lookup` | services/order-api/internal/services/order_service.go:62-72 | Finds the key if and only if a visible row has it |
| `OrderApi.UniqueIffNotUnseen` | services/order-api/internal/services/order_service.go:61-72 | A request keeps the keys unique if and only if it is refused, rolled back, or its key is not among the rows its reader has not seen |
| `OrderApi.UniqueIffNeverBlind` | services/order-api/internal/services/order_service.go:61-122 | Over any serial run, whatever the readers lag: no two rows share a key if and only if no request was admitted whose key lay in what its reader had not seen |
| `OrderApi.OrdersAdmittedOnce` | services/order-api/internal/services/order_service.go:61-122 | Every published job has a committed row with the same key, account and amount, whatever the readers lag; over requests that read the primary no two rows share a key |
| `OrderApi.EmptyBalanceDiffers` | services/order-api/internal/services/order_service.go:79-84 | An empty balance column reads as zero in the worker but is refused as undecryptable here |
| `OrderApi.StoredAmountCovered` | services/order-api/internal/services/order_service.go:92-104 | The stored, cent-rounded amount never exceeds the cent-valued balance it was checked against, even when rounding goes up |
| `OrderApi.OrderAmountReads` | services/order-api/internal/services/order_service.go:98-117 | The row and the published job decrypt to the nearest cent of the requested amount |
| `OrderApi.StaleReplicaDuplicates` | services/order-api/internal/services/order_service.go:62-72 | A replica that has not seen the first row admits a repeated request |

`Total(s, CopyOf(k))` counts the live copies of order `k`, `EventSum(history, ...)` counts or adds up committed
events, `Path` and `Throughout` speak about runs, and `Stuck` says that work is left but no faultless step is
possible now or after any delay.

## Left out

- Kafka, Redis and Postgres internals: they appear as steps with successful and failed answers. Redelivery,
  rebalancing and process crashes are not modelled, so each message is read once.
- Cancellation of the context: only `Consumer` has it, where cancelled paths never acknowledge. In the pipeline a
  retryable settlement, which the program reports only after cancellation, stays a possible answer of a gateway; the
  failing updates and commits that follow a cancellation are not modelled. The fraud service's answer on a cancelled
  context is the unavailable verdict.
- Several replicas of the worker: semaphores, pool and channel belong to one process.
- The endless select and read loops of the two Kafka handlers are steps of a transition system, not loops; the
  order of messages inside a topic is left open.
- `Analyze` runs beside the balance check in the program; the model takes its verdict after the check, and does not
  keep the read connection it may use after the check has failed.
- A dead letter is the hand-off: marshalling and producing it can fail silently in the program.
- A panic in the backoff ends the process; `ValidConfig` asks for a base and a limit for which it cannot happen.
- PaymentProcessor.PaymentProcessor.ProcessPayment: nothing else moves during the call, so a call that must wait stops
  there; how it goes on among the others is the transition system.
- AverageCache.AgreesIffNear: serial runs only, since concurrent payments of one account are excluded by the lock; at
  the bound itself the rounding decides.
- AES, base64, JSON decoding and struct validation: a job is readable and valid or not, an amount decrypts or not.
- Money.ParsePrint: the parser accepts a sign, digits, a point and digits, which is what the program prints; other forms that
  `strconv.ParseFloat` accepts do not occur in stored amounts.
- IEEE 754: sums, quotients and roundings are exact, ties in `%.2f` may go either way.
- The int64 wrap of Kafka offsets, and shifts of the retry count above 63.
- AverageCache.Account.ComputeDeviation: does not model a failed Redis read or an unreadable average; the program then uses no deviation.
- The velocity counter, the throttle before the fraud service and the internals of the local limiter: the latter's
  answer is arbitrary.
- OrderApi.OrderService.CreateOrder: is serial; two concurrent requests with one key are not modelled (the index on the key is not
  unique); the returned order id is left out.
- The user API, the fraud model service, seeding, configuration loading, HTTP handlers, metrics, charts and scripts:
  no property that spans operations.
