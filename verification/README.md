# A verified model of the OrderFlow order pipeline

OrderFlow accepts orders over HTTP, stores them in Postgres, and processes them from Kafka with any
number of consumers. A Redis key per event keeps two consumers from working on one event at the same
time. Failures go to a delay topic, and in the end to a dead-letter topic. The project models that
pipeline as a state machine in Dafny and proves what it keeps, and where it falls short.

## How the model is built

* **Step system** (`Pipeline.dfy`). Every Redis call, database transaction, publish and offset commit
  is one atomic step, with a program counter per consumer. Every call may fail with or without its
  effect, a consumer may crash at any step, partitions may be reassigned at any time, and consumers
  that lost a partition go on until their commit is fenced. Time is explicit; keys expire by the clock.
  A run (`IsRun`) is a sequence of states and actions from an empty system; the number of consumers,
  partitions and orders is unbounded, and attempts, times to live and delays are symbolic.
* **Premise.** `PunctualRun(states, i)` is the assumption that the documentation states, for one event:
  nobody who is still going to write order `i` outlives its lock. Slow consumers of other events do not
  matter. Results that need it say so; all others hold without it.
* **Invariant** (`Invariant.dfy`, proved step by step in `BaseProof`, `BaseRuns`, `SoundProof`,
  `LetterProof`, `SoundRuns`; `Frames` says once what a call leaves of each part of the state). One
  inductive invariant ties guard keys, rows, topics and offsets together. No-loss rests on a rank:
  created(1) < retry(2) < created(2) < ..., and whoever is about to acknowledge a record knows an uncommitted record of higher rank or a finished order.
* **Code in its own form.** `Handlers.Consumer`, `ConsumeLoop.Consumer`, `ReadPath.Reader`,
  `Submissions.Service` and `Orders.OrderRow` are classes whose methods make the source's calls in the
  source's order. `Others()` stands for everybody else between two calls: its contract allows any steps
  that leave the caller's own job alone, and callers rely on nothing more. Handlers are proved to stay
  inside the step system, so every result about runs applies to them.
* **Failure-free runs** (`FailureFree*.dfy`) refine a recursive specification of one order's fate.
* **Beside the pipeline** run the order cache (`Cache.dfy`) and the client idempotency keys
  (`ClientKeys.dfy`), each as an extra component of a pipeline run.
* **Witness runs** (`Witnesses`, `CacheWitness`, `ClientWitnesses`) show that each stronger claim fails.

## Where code and documentation disagree

The model follows the code.

* `docs/ARCHITECTURE.md:483` says that the terminal-status check protects an order when the guard's TTL
  runs out in flight. Only the first transaction checks; the later ones do not
  (`app/kafka/consumers.py:206-214`, `240-249`, `276-286`). `Witnesses.LateWriterOverwrites` is a run in
  which a completed order becomes failed, and `Theorems.FinishedOverwrittenIff` says exactly when.
* `app/service.py:33-36`, `README.md:182` and `docs/ARCHITECTURE.md:490` promise `SET NX` for the
  client's `Idempotency-Key`. The code reads the key with GET and later writes it with a plain SET.
  `ClientWitnesses.OverlapMakesTwo` is a run with two orders for one key, and
  `ClientTheorems.SecondOrderIff` says exactly when a second order can be made.
* A redelivery after a crash records a processing to processing hop, which the documented status
  diagram does not have (`Witnesses.CrashReentersProcessing`). `Reentry.ReentryIff` says exactly when, and
  `Reentry.ReentryNeedsFailure` that a former owner must have failed before.
* A dead letter can be lost for good: between the FAILED commit and the publish
  (`Witnesses.LostDeadLetter`), and between the tombstone and the publish of an event without an order
  (`Witnesses.LostMissingLetter`).

## Model

| member | source | states |
|---|---|---|
| `Theorems.TerminalAbsorbs` | app/kafka/consumers.py:136-296 | In every run that keeps the event's lock premise, with crashes, failing calls, redeliveries and reassignments, a completed or failed row is never touched again |
| `Theorems.OneTerminalTransition` | app/kafka/consumers.py:136-296 | Under the same premise the trail of an order holds exactly one terminal hop if the order is terminal and none otherwise |
| `Theorems.NoLostOrder` | app/kafka/consumers.py:82-93 | Under the lock premise every published event has a terminal order or an uncommitted record that carries it on the main or the retry topic |
| `Theorems.AckIsSafe` | app/kafka/consumers.py:162-296 | Whoever is about to commit a record leaves behind an order that is finished, does not exist, or is carried by an uncommitted record higher on the ladder |
| `Theorems.TombstoneSound` | app/kafka/consumers.py:215-223 | A done tombstone exists only for an order that is terminal or does not exist |
| `Theorems.AlreadyDoneSound` | app/kafka/consumers.py:150-154 | So does the ALREADY_DONE verdict of a claim, at the moment it is given |
| `Theorems.AuditTrail` | app/repository.py:48-67 | Every trail is a linked path of allowed hops from none to pending on, ending in the row's status |
| `Theorems.TrailOnlyGrows` | app/repository.py:58-66 | In every run, with or without the premise, rows are never deleted and trails are only extended |
| `Theorems.FinishedOverwrittenIff` | app/kafka/consumers.py:206-214 | Without the premise, in every reachable state, a finished order can be overwritten by the next step if and only if a consumer of its event stands before one of the transactions that do not re-check the status |
| `Theorems.AtMostOneLetter` | app/kafka/consumers.py:272-304 | An existing order has at most one dead-letter record over any run, only if it is failed, and the record carries the row's attempts, the main topic as its origin, and the row's reason behind "retries exhausted" or "permanent failure", cut at 500 characters |
| `Theorems.LetterUnlessSlipped` | app/kafka/consumers.py:276-290 | A failed order that nobody is about to report has its dead letter if and only if no failure fell between the FAILED commit and the publish |
| `Theorems.CommittedLettersArchived` | app/kafka/consumers.py:364-387 | Every committed dead-letter offset has an archive row with that partition and offset, and with the attempts, error, payload, order id and origin of that record, the dead-letter topic standing in for a missing origin |
| `Theorems.ArchivedFailureTells` | app/kafka/consumers.py:272-304 | Under the lock premise the archive row of a failed order's letter has the row's attempts and reason, the main topic as source, and the payload as first published |
| `Theorems.ArchiveHoldsLetters` | app/repository.py:70-94 | In every run every archive row goes back to a dead-letter record |
| `Theorems.RecordsKeepPayload` | app/kafka/consumers.py:252-262 | Over any number of hops every record of an order keeps the first-published value and key, and its attempt stays within 1..max_attempts |
| `Theorems.HopClimbs` | app/kafka/consumers.py:236-262 | In every run every republished record is exactly one rung higher on the ladder (attempt, topic stage), which is bounded by max_attempts |
| `Theorems.CommitsByOne` | app/kafka/consumers.py:93-93 | In every run a committed offset moves only by the live holder of the record at that offset, by one, under fenced commits |
| `BaseRuns.RunKeepsBase` | app/kafka/consumers.py:75-304 | The unconditional half of the invariant holds in every state of every run |
| `SoundRuns.RunKeepsSound` | app/kafka/consumers.py:162-296 | The whole invariant of an event holds in every state of every run that keeps that event's lock premise |
| `Reentry.ReentryIff` | app/kafka/consumers.py:184-196 | In every reachable state the next step can record a processing to processing hop if and only if the row is processing and a consumer of the event stands before the first transaction |
| `Reentry.ReentryIsAlone` | app/kafka/consumers.py:178-196 | Under the lock premise no consumer is then between the processing commit and the commit of a verdict |
| `Reentry.ReentryNeedsFailure` | app/kafka/consumers.py:162-196 | Under the lock premise the hop is recorded only after an earlier call of a former owner of the order failed or its consumer died |
| `Reentry.RunKeepsAttended` | app/kafka/consumers.py:190-214 | In every run a processing row has a consumer at work on it, or a consumer that was at work on it failed before |
| `MissingOrders.MissingAccounted` | app/kafka/consumers.py:178-183 | In every run, an event without an order that is tombstoned, being acknowledged or committed has its dead letter, a consumer about to publish it, or lost it to a failure between tombstone and publish |
| `MissingOrders.LossIff` | app/kafka/consumers.py:178-183 | The next step can lose that letter if and only if a consumer of the event stands before the publish, or before the tombstone while it still owns the key |
| `GuardTheorems.MutualExclusion` | app/idempotency.py:87-119 | Two consumers of one event that are between ACQUIRED and their release or completion and inside their locks are the same consumer |
| `GuardTheorems.StaleTokenPowerless` | app/idempotency.py:43-57 | No call of a consumer that does not own the visible key changes that key, however the call ends |
| `GuardTheorems.OnlyAcquiredWrites` | app/idempotency.py:87-105 | Over every run, a call of the claim writes nothing but its own token on a free key, and writes exactly when it returns ACQUIRED; the only other write is a SET that raises, or whose consumer dies, after its effect |
| `GuardTheorems.TombstoneHasAuthor` | app/idempotency.py:107-115 | Every tombstone goes back to an earlier completion by the owner of the key, and expires exactly done_ttl after it |
| `GuardTheorems.RememberedForDoneTtl` | app/idempotency.py:51-57 | Until done_ttl has passed since a completion, no SET of the event acquires and every GET of a claim ends in ALREADY_DONE, in every run |
| `GuardTheorems.TombstoneStays` | app/idempotency.py:50-57 | Nobody touches a tombstone before it expires |
| `CleanGuard.HeldIffHolder` | app/idempotency.py:107-119 | In every failure-free run a key is held if and only if a consumer is between ACQUIRED and its release or completion, so the next attempt finds it free |
| `GuardTheorems.LocksNeverOutliveTtl` | app/idempotency.py:91-100 | No lock ever expires later than lock_ttl from now |
| `GuardTheorems.CrashedHolderNeverBlocks` | app/idempotency.py:93-100 | Once lock_ttl has passed since the key was seen held, an uncontended SET acquires it, and that is its only outcome |
| `FailureFreeTheorems.RefinesFate` | app/kafka/consumers.py:171-296 | In every failure-free run with any outcome oracle, status and attempts of a finished order are those of the recursive specification, and the trail has exactly 1 + 2k entries |
| `FailureFreeTheorems.OneRetryPerAttempt` | app/kafka/consumers.py:236-262 | A finished order left exactly one retry record for each attempt 2..k and no other |
| `FailureFreeTheorems.ExactlyOne` | app/kafka/consumers.py:171-304 | Every published event is completed, dead-lettered or in flight, exactly one of these, and has exactly one active carrier while in flight |
| `FailureFreeTheorems.Conservation` | app/kafka/consumers.py:171-304 | Submitted events = completed + dead-lettered + in flight |
| `FailureFree.ClimbedFate` | app/kafka/consumers.py:233-236 | After transient failures only, the specification's verdict is that of the current attempt |
| `FailureFreeRuns.RunKeepsOrdered` | app/kafka/consumers.py:329-343 | In every failure-free run the records of an event occupy each rung of the ladder once, the lower ones are spent, and the row matches the phase of the highest |
| `Timing.NeverReplayedEarly` | app/kafka/consumers.py:329-341 | With a nondecreasing clock and untruncated delays, every replay onto the main topic happens at or after its not-before time |
| `Timing.TruncationWakesEarly` | app/kafka/consumers.py:331-334 | The scheduler wakes before not-before if and only if not-before is further away than the maximum delay |
| `Timing.WakesWhenDue` | app/kafka/consumers.py:331-334 | With untruncated delays the scheduler wakes exactly at not-before, or at once when that has passed |
| `RetryTiming.RetryIsDue` | app/kafka/consumers.py:237-262 | In every run every record on the retry topic has behind it, in this order, the commit of the attempt before as pending with a delay that the backoff can draw, a moment at which the clock was read with not-before exactly that delay later, and its own publish |
| `RetryTiming.BackoffTakesEffect` | app/kafka/consumers.py:237-262 | Every replay comes at least the drawn delay, and so at least the rounded half of the base delay, after the commit that put the attempt before back to pending |
| `Backoff.NeverTruncatedIff` | app/processing.py:54-64 | For a maximum delay on the millisecond grid, no possible draw exceeds the scheduler's cap if and only if half the base delay rounds to at most that cap |
| `Backoff.DelayWithin` | app/processing.py:60-64 | Every delay that can be drawn lies between the rounded half base and the rounded ceiling, and below the maximum delay |
| `Backoff.CeilingsGrow` | app/processing.py:60-63 | Per-attempt ceilings never decrease and never exceed the maximum delay |
| `Backoff.CeilingIsSmaller` | app/processing.py:60-63 | For every attempt the ceiling is the smaller of the maximum delay and base * 2**(attempt - 1) |
| `Backoff.RoundsToNearest` | app/processing.py:64-64 | A delay is rounded to the nearest millisecond, and to the even one in the middle |
| `Backoff.DoubledIsPower` | app/processing.py:62-62 | The doubled base is base * 2**n |
| `Backoff.LadderTotalIff` | app/processing.py:54-64 | For every base delay, on the millisecond grid or not: the delays of every ladder of n hops add up to at most base * (2**n - 1) if and only if the n rounded ceilings do |
| `Backoff.LadderTotalRounded` | app/processing.py:54-64 | For every base delay the total exceeds base * (2**n - 1) by at most half a millisecond per hop |
| `Backoff.LadderTotal` | app/processing.py:54-64 | The special case of a base on the millisecond grid: the bound holds for every draw |
| `Backoff.LadderCap` | app/processing.py:54-64 | They also add up to at most n times the maximum delay |
| `Backoff.OffGridExceeds` | app/processing.py:64-64 | A base off the grid for which the condition fails for one hop and for two, and holds for three |
| `Backoff.CeilingKeptIff` | app/processing.py:64-64 | For an attempt, no draw exceeds the ceiling if and only if the ceiling does not round up |
| `Headers.Build` | app/kafka/headers.py:22-38 | Reading the built headers through the getters gives back the attempt (at least 1), the not-before time, the first 500 characters of the error, and the origin; a failure time is there exactly with an origin |
| `Headers.BadAttemptIsFirst` | app/kafka/headers.py:47-53 | An attempt header that is empty or holds anything but digits counts as the first attempt |
| `Headers.NegativeAttemptIsFirst` | app/kafka/headers.py:51-51 | So does any number below one |
| `Headers.ParsesIff` | app/kafka/headers.py:50-53 | Exactly the non-empty digit texts are read as naturals |
| `Headers.ParseShowInt` | app/kafka/headers.py:47-53 | Every integer attempt survives being written and parsed |
| `Headers.LookupAppend` | app/kafka/headers.py:41-44 | A later header shadows earlier ones of its name and no other header, and one without a value reads as empty |
| `Headers.ForwardKeeps` | app/kafka/consumers.py:336-341 | Forwarding headers keeps the attempt and the first 500 characters of the original error, however often it is done |
| `Provenance.LaterAttemptsCarryLastError` | app/kafka/consumers.py:252-262 | In every run every record of a later attempt of an order, on the retry topic or replayed, goes back to the step that scheduled that attempt and carries the first 500 characters of the error that failed the attempt before |
| `Provenance.RecordsAreSourced` | app/kafka/consumers.py:329-343 | In every run every record on the retry topic and every replay has such a step behind it, whose delay is one that the backoff can draw for that attempt |
| `RetryTiming.LadderOfRun` | app/kafka/consumers.py:236-262 | In every failure-free run the delays after which the retry records of a finished order are due form a ladder of attempts - 1 < max_attempts hops, so that their total is at most hops * max delay and at most base * (2**hops - 1) plus half a millisecond per hop |
| `ConsumeLoop.EveryEventFollows` | app/kafka/consumers.py:83-93 | Every record is handled at its partition's committed offset of that moment, and every commit follows the acknowledgement of the record below it |
| `ConsumeLoop.HandledIsTaken` | app/kafka/consumers.py:82-93 | What the loop handles is what the step system lets a live consumer take |
| `ConsumeLoop.Consumer.HandleOne` | app/kafka/consumers.py:84-93 | One turn of the inner loop on the fetched record: nothing is handled once the stop flag is set; COMMIT commits its own offset plus one; a redelivery or an exception leaves the offsets alone |
| `ConsumeLoop.BelowIsAcknowledged` | app/kafka/consumers.py:82-93 | Every record below a partition's committed offset was acknowledged COMMIT by its handler |
| `ConsumeLoop.OffsetsNeverMoveBack` | app/kafka/consumers.py:82-93 | Committed offsets never decrease |
| `ConsumeLoop.AcknowledgedInOrder` | app/kafka/consumers.py:82-93 | A partition's acknowledgements follow offset order |
| `ConsumeLoop.Consumer.HandleShare` | app/kafka/consumers.py:83-93 | The inner loop handles the fetched offsets in order and ends with the position back at the committed offset, short of the fetched records only after a redelivered one or an interruption |
| `ConsumeLoop.Consumer.Fetch` | app/kafka/consumers.py:81-81 | A poll moves the position of each polled partition past the records it hands out, at most the limit and at most what is there |
| `ConsumeLoop.Consumer.Run` | app/kafka/consumers.py:75-116 | For every batch, seek, break, stop, cancellation and failing commit: the history is disciplined, all committed records were acknowledged, an early end has a cause, and with no trouble at all the committed offsets reach what was asked for |
| `Handlers.Consumer.Claim` | app/idempotency.py:87-105 | Whatever happens between its calls, `claim` stays within the step system and ends in the state that its status says |
| `Handlers.Consumer.CheckRow` | app/kafka/consumers.py:178-196 | The first transaction ends in the missing, the terminal or the processing branch, and in the last one the processing row was committed with this attempt |
| `Handlers.Consumer.ScheduleRetry` | app/kafka/consumers.py:237-274 | If it returns, the row was committed pending with the error; a retry record with the payload, the order's key, attempt + 1, the clipped error and the origin is on the retry topic, due exactly the drawn delay after a moment of the call; and the claim is not held any more |
| `Handlers.Consumer.GiveUp` | app/kafka/consumers.py:275-296 | If it returns, the row was committed failed with the error, a dead letter with the record's payload, key, attempt and origin is on its topic, saying "retries exhausted" or "permanent failure" in front of the error, and the claim is not held any more |
| `Handlers.Consumer.Finish` | app/kafka/consumers.py:199-296 | If the rest of the work returns: a fulfilled order was completed; a refused one failed and dead-lettered as a permanent failure; a timeout with attempts left put back to pending with the next attempt queued; a timeout without failed and dead-lettered as exhausted |
| `Handlers.Consumer.Missing` | app/kafka/consumers.py:180-183 | If it returns, the dead letter of the missing order is on its topic |
| `Handlers.Consumer.Handle` | app/kafka/consumers.py:136-169 | COMMIT is answered only with the order missing, finished, or carried further by an uncommitted record; in every other case the record is redelivered or the consumer died |
| `Handlers.Consumer.HandlePoison` | app/kafka/consumers.py:139-145 | An undecodable envelope is acknowledged only with its dead letter published: same value, key and attempt, a schema violation, and where it came from |
| `Handlers.Consumer.HandleRetry` | app/kafka/consumers.py:329-343 | A retry record is acknowledged only once a record with its value, key, attempt and error and without a schedule is on the main topic, and then its order is missing, finished or carried further |
| `Handlers.Consumer.HandleDeadLetter` | app/kafka/consumers.py:364-387 | A dead letter is acknowledged only once its archive row is committed, with the record's partition, offset, attempts, error, payload, order id and origin |
| `Orders.OrderRow.constructor` | app/repository.py:15-28 | A new order is pending with a one-entry trail |
| `Orders.OrderRow.Transition` | app/repository.py:48-67 | The object becomes the moved row, earlier trail entries stay, and a well-formed row stays well formed if and only if the hop is allowed |
| `Orders.MovedKeepsRowOk` | app/repository.py:58-65 | A transition keeps the trail a linked path of allowed hops if and only if its hop is allowed |
| `Orders.OneTerminalHop` | app/repository.py:48-67 | A well-formed trail holds one terminal hop if the row is terminal, else none |
| `Cache.BoundedStaleness` | app/cache.py:31-57 | In every interleaving, a copy served at time s was the committed row at some time later than s - ttl - d, where d bounds load-to-put delay, and its trail is a prefix of the stored trail |
| `Cache.TerminalCopiesAreCurrent` | app/kafka/consumers.py:215-215 | Under the lock premise a cached terminal row is the stored row |
| `Cache.OnlyLateWritesGoBack` | app/cache.py:53-57 | A cache write replaces a copy by an older one only if it carries a copy that was not loaded later |
| `CacheWitness.StalenessIsTight` | app/service.py:66-69 | For every ttl and d there is a run in which a late write replaces the newer copy and the old one is served at age ttl + d - 1 |
| `ReadPath.Reader.GetOrder` | app/cache.py:31-50 | A hit was served during the call; after a miss with Redis up the key is not served any more, unreadable entries included; it raises only when the delete of an unreadable entry fails |
| `ReadPath.Reader.PutOrder` | app/cache.py:53-57 | The copy in hand is stored for the full ttl, or dropped when Redis fails |
| `ReadPath.Reader.ReadOrder` | app/service.py:84-95 | The answer is a copy served during the call or a row committed during the call, and "not found" means that the database did not have the order during the call; an exception means that an unreadable entry could not be deleted; after an answer from the database the cache holds it for its full ttl unless a Redis call failed |
| `ReadPath.AnswersAreRecent` | app/service.py:84-95 | Any answer was the committed row less than ttl + d before some moment of the call, and its trail never disagrees with the stored one |
| `ClientKeys.RunKeepsDesk` | app/service.py:38-71 | In every run every order was made by one request, a key names only orders made with it, and a request about to publish owns an unpublished order |
| `ClientTheorems.RepliesAreHonest` | app/service.py:38-71 | In every run a duplicate reply returns an existing order that another request created with the same key; any other reply returns the request's own, published order |
| `ClientTheorems.PublishedOnce` | app/service.py:58-66 | In every run, by the stages of the requests alone, the event of an order is published at most once |
| `ClientTheorems.OneOrderPerKey` | app/service.py:38-51 | If requests with a key do not overlap, the key does not expire, and none fails between commit and key write, at most one order exists for the key |
| `ClientTheorems.SecondOrderIff` | app/service.py:38-51 | In every run in which an order was made with the key, the next step can make a second one if and only if a request with the key is about to insert |
| `ClientTheorems.InsertMeansMissed` | app/service.py:74-81 | Every request about to insert with the key has looked it up before and missed: absent, expired, unreadable or naming no order |
| `ClientTheorems.SameAnswerPerKey` | app/service.py:38-71 | Under the same premises all replies to a key name one order and all but one are duplicates |
| `ClientWitnesses.OverlapMakesTwo` | app/service.py:38-51 | With overlapping requests alone, two orders exist for one key |
| `ClientWitnesses.FailureMakesTwo` | app/service.py:43-51 | With a failure between commit and key write alone, two orders exist for one key |
| `ClientWitnesses.ExpiryMakesTwo` | app/service.py:47-51 | With an expired key alone, two orders exist for one key |
| `Submissions.Service.ResolveKey` | app/service.py:74-81 | A duplicate is answered only if the key named that order during the call; going on means that the key named none |
| `Submissions.Service.Submit` | app/service.py:22-71 | A duplicate reply names another request's order with the same key; a fresh one comes after a miss, with the client's payload stored, the key stored for its full ttl, and an event with that payload, the order's key and attempt 1 on the main topic |
| `ClientKeys.PayloadStays` | app/service.py:43-66 | The payload of an order never changes |
| `ClientKeys.GivenUnlessEmpty` | app/service.py:38-46 | A key is given exactly when the header is there and not empty |
| `Witnesses.LateWriterOverwrites` | app/kafka/consumers.py:276-286 | Without the lock premise a completed order is overwritten and its trail has two terminal hops |
| `Witnesses.CrashReentersProcessing` | app/kafka/consumers.py:184-196 | A crash and a redelivery record a processing to processing hop, under the lock premise |
| `Witnesses.LostDeadLetter` | app/kafka/consumers.py:276-290 | A crash after the FAILED commit ends with the record committed and no dead letter, under the lock premise |
| `Witnesses.LostMissingLetter` | app/kafka/consumers.py:178-183 | A crash after the tombstone of an event without an order ends with the record committed and no dead letter |

## Left out

- HTTP routes, health checks, list and count queries, signals, topic creation and connection handling: no state of their own.
- Redis, Kafka and Postgres themselves: a map with expiry, append-only logs with offsets, and atomic transactions. Commits of a consumer that lost its partition are assumed fenced, and logs are never truncated.
- Claim tokens and order ids: assumed fresh and different from the text "done"; event `i` stands for the one event of order `i`, so the archive row has no separate event id.
- Which partition a key maps to: a publish may choose any partition of its topic. The handler methods publish to partition 0.
- JSON and schema validation: a record value is an event or one that fails validation. Bytes that are not JSON fail before `handle` and are outside the model. For a value that fails validation the archive row has no order id.
- The individual branches of `validate`: only the outcome class of `fulfil` matters; it is chosen freely, or by an oracle in failure-free runs.
- Error texts of dead letters: without the ids and exception texts that the source interpolates; trail notes are not modelled.
- Statistics counters and log lines: best-effort writes that swallow their errors.
- `forget` and `invalidate_order`: operational escape hatches; forgetting a guard key breaks the guard's premises.
- The gap between the order's commit and the publish of its event: a request may die there; the no-loss result starts at publication.
- Liveness: nothing is said about an event being processed eventually, only that it stays carried until it is finished.
- Theorems.CommitsByOne: that a live consumer holds the record at the committed offset is the guard of the step system's Take; the loop's side of it is ConsumeLoop.EveryEventFollows and ConsumeLoop.HandledIsTaken.
- ConsumeLoop.Consumer.Run: one consumer without reassignment; reassignment and fencing are in the step system.
- Headers.Build: the text of a timestamp is a codec that is assumed lossless, as `repr` and `float` are; UTF-8 coding with replacement is the identity.
- Headers.ForwardKeeps: about headers only; what the records of a run carry is Provenance.LaterAttemptsCarryLastError.
- Backoff.LadderTotal: needs the base on the millisecond grid; Backoff.LadderTotalIff decides every other base.
- Headers.ParseShowInt: the whitespace, underscore and non-ASCII digit forms that Python's `int` accepts are read as errors; the program never writes them.
- Backoff.DelayWithin: delays are reals rounded half to even on the millisecond grid, not floating-point numbers, and the distribution of the jitter is left out.
- Handlers.Consumer.Handle: for an event that was processed, what its verdict left behind is stated by Finish and not repeated.
- Handlers.Consumer.Finish: cache writes and counters between the calls are left out; the cache has its own component.
- Cache.BoundedStaleness: an operation happens together with or right after a pipeline step, and a cached copy is the whole row, without its serialisation.
