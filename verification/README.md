# Verified model of the event gateway

A Dafny model of the stateful cores of the event gateway, with the properties that hold over all
their inputs, histories and interleavings. `dafny verify dfyconfig.toml` checks the whole project.

Time is an integer number of nanoseconds. Every clock reading an operation makes is a parameter, and
so are random draws, generated identifiers, cancellation, and the outcomes of broker, store and
stream calls. Histories assume only that the clock does not run backwards.

| files | what they model |
|---|---|
| `ReplayIndex`, `ReplayQuery`, `ReplayPaging`, `ReplayStore`, `ReplayStream` | the in-memory event store, its minute index, its queries, and the replay streamer |
| `ProducerBreaker`, `ProducerRecords`, `ProducerPublish` | the producer's circuit, one step per atomic or lock operation, what it does with recorded outcomes, and one publish call |
| `CircuitBreaker` | the general circuit breaker |
| `Consumer`, `ConsumerLoss`, `Pipeline`, `Delivery` | the consumer's fetch, send and commit protocol, when it can lose a message, the channels up to the client, and consumer and channels together |
| `RateLimiter` | the per-key limiter with eviction |
| `Ingestion` | streams, batches, storing, publishing and acknowledging |
| `Retry`, `SchemaCache`, `EventFilters` | the retry loop, the schema validator's maps, the event filter |
| `Prelude`, `GoTime`, `Events` | shared types, sequence lemmas, Go's times and 64-bit integers |

Objects that the program updates in place are classes whose methods are proved against a transition
function; the theorems over runs are about that function. Protocols of several threads or processes
are state machines over their steps.

Some promises do not hold on all inputs. For these the model keeps the code's behaviour and proves
exactly when the promise holds:

- A range query returns what a scan of the event list returns if and only if the range misses the
  expired part of the last cutoff's minute (`ReplayQuery.QueryExactIff`).
- A page is the right slice if and only if the start index fits a 64-bit int, or its wrapped value
  lies beyond the result (`ReplayPaging.PageExactIff`; `PagePanics` and `AnotherPage` show both ways
  to fail).
- The consumer can pass over an unhandled message, without its own send being cancelled, if and only
  if a commit has already passed it, or the process's reader dropped it earlier and can still commit a
  later record, or nothing is committed for its partition and a record follows where a fresh process
  would start (`ConsumerLoss.LossIff`). The second happens when a client reconnects after a cancelled
  send: the next subscription of the process goes on with the same reader
  (`ConsumerLoss.CancelledSendCanBeLost`). The third happens because the reader starts at the log's
  end (`ConsumerLoss.UncommittedGroupCanSkip`). A fresh process reads everything owed above the
  committed offset again (`ConsumerLoss.FreshProcessRestores`). With its own send open to cancellation
  the message can be passed over if and only if one of these holds or its partition has a commit and
  a later record (`ConsumerLoss.PlainLossIff`).
- The rate limiter's cleanup collects stale keys and deletes them later, with calls in between.
  Histories in which no call is admitted for a collected key are answered as without cleanups if and
  only if a full refill takes no longer than a key must idle to be collected
  (`RateLimiter.EvictionTransparentIff`). Over all histories cleanups are unobservable if and only if
  the burst is zero (`RateLimiter.CleanupsUnseenIff`). A single deletion is unobservable if and only if
  the limiter is full at that moment (`RateLimiter.EvictUnseenIff`). A limiter that admitted a call
  stays within reach of later cleanups if and only if the call did not come between the deletions of
  the key's old limiter and old access time (`RateLimiter.FindableIff`).
- The backoff is the documented one if and only if the exponential fits a duration or its substitute
  is capped anyway (`Retry.BackoffExactIff`). A jittered wait exists if and only if the backoff is at
  least 2 ns, and adds less than half of it if and only if the sum fits 64 bits (`Retry.JitterIff`).
- A fresh schema registration survives its time to live if and only if no lookup is waiting to delete
  the id and no lookup in flight holds a reading of it from before the registration
  (`SchemaCache.RegistrationSafeIff`; `RegistrationLost` and `FreshRegistrationLost` are runs that
  lose one either way).
- The store's shortcut for empty filters agrees with the filter on exactly the events of
  non-negative priority (`EventFilters.EmptyShortcutIff`).

Where the code and its comments disagree the model follows the code. Retry's `MaxBackoff` is
documented as the longest wait between retries, while jitter adds to the capped value
(`Retry.CapKeptIff` says when the wait still stays under it). Count is documented as counting within
a time range and leaves out both endpoints, while a query over the same range includes them.

## Model

| member | source | states |
|---|---|---|
| GoTime.MinuteBucketMonotone | internal/infrastructure/replay/replay_store.go:85-123 | later instants never have smaller index keys, before and after the epoch, so scanning keys covers scanning instants |
| GoTime.MinuteBucketSpan | internal/infrastructure/replay/replay_store.go:42-63 | exactly which instants share an index key, including the double-width key 0 |
| EventFilters.NewEventFilter | internal/domain/valueobject/filter.go:66-110 | succeeds iff every non-empty pattern compiles, keeps all criteria and holds each pattern's own compilation; the error names the first pattern that does not compile |
| EventFilters.Evaluate | internal/domain/valueobject/filter.go:144-172 | the early exits and the loop over metadata decide that source, type and subject pass their patterns, the priority is at least the minimum, and every required metadata entry is there |
| EventFilters.RemoveMetadataFilter | internal/domain/valueobject/filter.go:198-209 | copying criteria one by one yields the filter without that key and nothing else changed |
| EventFilters.AddReplaces | internal/domain/valueobject/filter.go:186-209 | a filter with an added entry matches exactly what matches without that key and has the entry; removing the key again undoes it |
| EventFilters.EmptyShortcutIff | internal/domain/valueobject/filter.go:176-182 | an empty filter matches an event iff the event's priority is not negative |
| ReplayIndex.AppendKeeps | internal/infrastructure/replay/replay_store.go:42-63 | appending to list and index keeps them consistent |
| ReplayIndex.CleanedBucket | internal/infrastructure/replay/replay_store.go:224-244 | after a cleanup every key but the cutoff's lists exactly the stored events, and the cutoff's own key splits into expired or listed entries and later ones |
| ReplayIndex.StepKeeps | internal/infrastructure/replay/replay_store.go:42-63 | Store with or without cleanup, and Clear, keep list and index consistent |
| ReplayIndex.RunConsistent | internal/infrastructure/replay/replay_store.go:42-63 | in every history list and index are consistent and the last cutoff lies in the clock's past |
| ReplayIndex.AgreeAboveCutoff | internal/infrastructure/replay/replay_store.go:224-254 | newer than the last cutoff, each key's entries equal the list's events of that key, as sequences |
| ReplayIndex.IndexRefinesList | internal/infrastructure/replay/replay_store.go:224-254 | over all histories: agreement above the cutoff, no listed event missing from the index, and index-only leftovers expired and in the cutoff's own key |
| ReplayIndex.RunTimeOrdered | internal/infrastructure/replay/replay_store.go:42-63 | if events arrive in time order the list is in time order after every history, cleanups and Clear included |
| ReplayIndex.StoreRetains | internal/infrastructure/replay/replay_store.go:42-63 | one Store keeps every event but those at or before the cutoff of a cleanup, and a cleanup runs iff the last one finished more than 60 s before |
| ReplayQuery.ByBucketStable | internal/infrastructure/replay/replay_store.go:85-123 | arranging a list key by key is stable: in key order, each key's events in list order |
| ReplayQuery.StableUnique | internal/infrastructure/replay/replay_store.go:85-123 | the stable arrangement is unique, so a list already in key order is its own arrangement |
| ReplayQuery.ByBucketPermutes | internal/infrastructure/replay/replay_store.go:85-123 | the arrangement is a permutation of the events whose keys it covers |
| ReplayQuery.QueryRefinesScan | internal/infrastructure/replay/replay_store.go:85-123 | when the range misses the leftovers, the key scan is the stable arrangement and a permutation of the linear scan, and equals it when the list is in time order |
| ReplayQuery.LeftoverIsReturned | internal/infrastructure/replay/replay_store.go:224-244 | for every other range there is a history whose list holds nothing in the range while the query returns an expired event |
| ReplayQuery.QueryExactIff | internal/infrastructure/replay/replay_store.go:66-123 | for a given cutoff and range, queries are permutations of the linear scan in every history iff the range misses the cutoff key's expired part |
| ReplayQuery.OnlyWanted | internal/infrastructure/replay/replay_store.go:85-123 | for every range nothing is returned that is outside it or refused by the filter |
| ReplayQuery.ExactlyWanted | internal/infrastructure/replay/replay_store.go:85-123 | for a range that misses the leftovers every stored event in it that the filter accepts is returned, as often as it is stored |
| ReplayQuery.QueryInTimeOrder | internal/infrastructure/replay/replay_store.go:66-123 | over whole histories stored in time order, such a query is the in-order filter of the list |
| ReplayPaging.PageExactIff | internal/infrastructure/replay/replay_store.go:142-160 | with 64-bit wrap-around and slice panics, a page is the intended slice iff its start index fits or wraps beyond the result |
| ReplayPaging.PagePanics | internal/infrastructure/replay/replay_store.go:142-160 | page 2^62 + 1 of size 2 panics on every result |
| ReplayPaging.AnotherPage | internal/infrastructure/replay/replay_store.go:142-160 | page 2^62 + 1 of size 4 returns the first page of every non-empty result |
| ReplayPaging.PageElements | internal/infrastructure/replay/replay_store.go:146-160 | which elements a page holds, by their numbers, and how many |
| ReplayPaging.PagesArePrefix | internal/infrastructure/replay/replay_store.go:142-160 | the first n pages concatenate to the first n x size elements |
| ReplayPaging.PagesPartition | internal/infrastructure/replay/replay_store.go:126-161 | pages 1 to ceil(total/size) concatenate to the whole result and every later page is empty |
| ReplayPaging.QueryMinusCount | internal/infrastructure/replay/replay_store.go:164-176 | an unfiltered query has as many events more than Count reports as lie exactly on an endpoint |
| ReplayStore.InMemoryEventStore.constructor | internal/infrastructure/replay/replay_store.go:30-39 | an empty store that is consistent |
| ReplayStore.InMemoryEventStore.Store | internal/infrastructure/replay/replay_store.go:42-63 | a nil event is refused without change; otherwise the event is added once, a cleanup more than 60 s after the last one drops exactly the events at or before its cutoff, and list, index and cutoff make the step of the run theorems |
| ReplayStore.InMemoryEventStore.Cleanup | internal/infrastructure/replay/replay_store.go:224-244 | the two loops filter the list by instant and the index by whole keys |
| ReplayStore.InMemoryEventStore.Clear | internal/infrastructure/replay/replay_store.go:247-254 | empties list and index and forgets the cutoff |
| ReplayStore.InMemoryEventStore.QueryByTime | internal/infrastructure/replay/replay_store.go:85-123 | an inverted range is an error; otherwise everything returned lies in the range and passes the filter, and when the range misses the leftovers each stored event that does is returned as often as stored, in stable key order and on a time-ordered list in list order |
| ReplayStore.InMemoryEventStore.AppendSelected | internal/infrastructure/replay/replay_store.go:105-117 | the inner loop appends exactly the entries in range that pass the filter, in order |
| ReplayStore.InMemoryEventStore.QueryEvents | internal/infrastructure/replay/replay_store.go:66-81 | a missing range means from the zero time to now; of events with non-negative priority exactly those in the range that match the filter are returned, as often as stored, when the range misses the leftovers, and no others for any range |
| ReplayStore.InMemoryEventStore.QueryWithPagination | internal/infrastructure/replay/replay_store.go:126-161 | the errors in order of precedence, the requested page, and on every page the total of the whole query |
| ReplayStore.InMemoryEventStore.TakePage | internal/infrastructure/replay/replay_store.go:146-160 | the 64-bit index arithmetic and the slice give the intended page and the total, or the slice's panic |
| ReplayStore.InMemoryEventStore.Count | internal/infrastructure/replay/replay_store.go:164-176 | counts strictly inside the range, and how that relates to the query over the same range |
| ReplayStore.InMemoryEventStore.GetLatest | internal/infrastructure/replay/replay_store.go:197-221 | min(limit, size) events of the list, each no more often than it is stored, in order of descending time, and nothing left out is newer than any of them |
| ReplayStore.ShortcutAgrees | internal/infrastructure/replay/replay_store.go:75-80 | on lists of non-negative priority the shortcut selects what the filter selects |
| ReplayStream.PausesClosed | internal/application/service/replay_service.go:171-211 | a complete run of n >= 1 events pauses (n - 1) / batchSize times |
| ReplayStream.Stream | internal/application/service/replay_service.go:130-223 | emits a prefix of the result, of at most `limit` events if the limit is positive, all of that iff not interrupted, never after a cancellation seen, with the exact number of pauses; panics exactly as the ticker and the remainder by a zero batch size do |
| ReplayStream.Replay | internal/application/service/replay_service.go:63-126 | everything emitted lies in the range and, with non-negative priority, matches the filter; a complete replay without limit emits each such stored event as often as stored; on a time-ordered store the emitted events are the first of them in time order |
| ProducerBreaker.ExclusiveKept | internal/infrastructure/kafka/producer.go:282-336 | every thread step keeps the write lock exclusive |
| ProducerBreaker.OneCounterKept | internal/infrastructure/kafka/producer.go:282-336 | every thread step keeps: both counters nonzero means a thread is between its increment and its store |
| ProducerBreaker.FailuresAnsweredKept | internal/infrastructure/kafka/producer.go:282-336 | every thread step keeps: a closed circuit at the threshold has a thread bound to open it or zero the count |
| ProducerBreaker.NeverStuckKept | internal/infrastructure/kafka/producer.go:314-335 | every thread step keeps: an open circuit has a running timer or a thread bound to reset it |
| ProducerBreaker.StepKeepsInv | internal/infrastructure/kafka/producer.go:260-336 | every step of every thread, new threads, timer firing and Close keep the four invariants |
| ProducerBreaker.RunKeepsInv | internal/infrastructure/kafka/producer.go:260-336 | the four invariants hold in every state of every interleaving |
| ProducerBreaker.QuiescentStates | internal/infrastructure/kafka/producer.go:282-336 | whenever no thread is recording and no callback runs: closed means fewer failures than the threshold, the counters are not both nonzero, and before Close open means the timer runs |
| ProducerBreaker.EveryState | internal/infrastructure/kafka/producer.go:282-336 | the same facts in every state, with the thread that makes up for them named by its position |
| ProducerBreaker.CountersAccounted | internal/infrastructure/kafka/producer.go:282-312 | the counters never exceed the recorded outcomes since their last zeroing |
| ProducerBreaker.SwitchesForCause | internal/infrastructure/kafka/producer.go:292-325 | over every run the circuit opens only by a thread that loaded the count after five unbroken failures, and closes only by the timer or by a thread that loaded it after five unbroken successes |
| ProducerBreaker.SinglePublisher | internal/infrastructure/kafka/producer.go:80-85 | with one publisher and no Close the circuit is open exactly while its timer runs, its callback is on the way or the opener is about to arm it, and the branch closing on successes is never entered |
| ProducerRecords.CountersExact | internal/infrastructure/kafka/producer.go:282-312 | in every interleaving, while fewer than 2^31 outcomes of each kind are recorded, each counter is exactly the number of its outcomes since it was last zeroed |
| ProducerRecords.FailuresOpen | internal/infrastructure/kafka/producer.go:304-336 | whenever no thread is recording, five failures since the last success, opening or reset mean that the circuit is open |
| ProducerRecords.WritersSawClosed | internal/infrastructure/kafka/producer.go:80-85 | in every interleaving a thread that writes has read the circuit closed |
| ProducerRecords.FailureRecorded | internal/infrastructure/kafka/producer.go:304-336 | an undisturbed failing publish adds one failure and forgets the successes; the fifth in a row opens a closed circuit, arms the timer and starts the count again |
| ProducerRecords.SuccessRecorded | internal/infrastructure/kafka/producer.go:282-301 | an undisturbed successful publish adds one success and forgets the failures; the fifth in a row closes an open circuit |
| ProducerRecords.Alone | internal/infrastructure/kafka/producer.go:282-336 | what a thread does on its own it does among any others that hold no lock |
| ProducerRecords.FifthFailureOpens | internal/infrastructure/kafka/producer.go:304-336 | publishers that fail in turn open a closed circuit with the fifth failure and not before, and arm the timer |
| ProducerRecords.RefusedWhileOpen | internal/infrastructure/kafka/producer.go:80-85 | after that every publisher is back at its start after the check, without reaching a write, and nothing has changed |
| ProducerRecords.CallbackCloses | internal/infrastructure/kafka/producer.go:325-332 | when the timer fires its callback closes the circuit and zeroes both counters |
| ProducerRecords.CloseStopsTimer | internal/infrastructure/kafka/producer.go:261-274 | after Close the timer cannot fire |
| ProducerPublish.SerializeEvents | internal/infrastructure/kafka/producer.go:183-217 | one message per serializable event, in order, with the event's partition key as key, its serialization as value, and its identifier and time as headers |
| ProducerPublish.PublishWithRetry | internal/infrastructure/kafka/producer.go:220-258 | at most four writes, stopping at the first success, with waits of 200, 400 and 800 ms; success, failure or no record exactly by how it ended |
| ProducerPublish.Publish | internal/infrastructure/kafka/producer.go:74-157 | which error each case reports and what it records: a refused call nothing, a serialization error a failure; success is reported iff a write succeeded, and that write carried the event's key, payload, identifier and time |
| ProducerPublish.PublishBatch | internal/infrastructure/kafka/producer.go:160-180 | the errors in order of precedence; success means one write carried all serializable events in order; a batch without any leaves no record |
| CircuitBreaker.Normalized | pkg/circuitbreaker/circuit_breaker.go:65-81 | every setting becomes positive, each positive setting stays, and unset ones become 5 failures, 60 s and one probe |
| CircuitBreaker.Breaker.constructor | pkg/circuitbreaker/circuit_breaker.go:65-81 | starts closed with empty counters |
| CircuitBreaker.Breaker.Execute | pkg/circuitbreaker/circuit_breaker.go:101-115 | makes the transition of the run theorems; a refused call runs nothing and changes nothing |
| CircuitBreaker.Breaker.ExecuteClosed | pkg/circuitbreaker/circuit_breaker.go:118-134 | runs the function, counts failures and opens at the threshold |
| CircuitBreaker.Breaker.ExecuteOpen | pkg/circuitbreaker/circuit_breaker.go:138-146 | refuses until the timeout has passed, then probes |
| CircuitBreaker.Breaker.ExecuteHalfOpen | pkg/circuitbreaker/circuit_breaker.go:149-167 | a failed probe reopens, enough successes close |
| CircuitBreaker.Breaker.ChangeState | pkg/circuitbreaker/circuit_breaker.go:170-178 | notifies every real change once, so the notifications form a path from Closed to the current state |
| CircuitBreaker.Breaker.ResetNow | pkg/circuitbreaker/circuit_breaker.go:181-194 | closes the circuit and notifies only if it was not closed |
| CircuitBreaker.TrippedStep | pkg/circuitbreaker/circuit_breaker.go:118-167 | how one more run or reset changes whether the history counts as tripped |
| CircuitBreaker.StepAgrees | pkg/circuitbreaker/circuit_breaker.go:101-194 | one call or reset keeps state and history in agreement, and the call is refused iff the history does not admit it |
| CircuitBreaker.BreakerRefinesHistory | pkg/circuitbreaker/circuit_breaker.go:101-194 | after every history of calls and resets, mode and counters are the ones prescribed by the log of actual runs |
| CircuitBreaker.RunsIffAdmitted | pkg/circuitbreaker/circuit_breaker.go:138-146 | in every reachable state the function runs iff the history admits the call |
| CircuitBreaker.FailuresTrip | pkg/circuitbreaker/circuit_breaker.go:118-134 | calls that fail one after the other open a closed circuit exactly with the threshold's one, and all of them run |
| CircuitBreaker.OpenRefuses | pkg/circuitbreaker/circuit_breaker.go:138-146 | an open circuit refuses a call, unchanged, iff it comes before the timeout after the last failure |
| CircuitBreaker.ProbesClose | pkg/circuitbreaker/circuit_breaker.go:149-167 | after the timeout the configured number of successful probes closes the circuit and fewer leave it half open; all of them run |
| CircuitBreaker.ProbeFails | pkg/circuitbreaker/circuit_breaker.go:149-167 | a failed probe opens the circuit again from its own end on |
| CircuitBreaker.ResetForgives | pkg/circuitbreaker/circuit_breaker.go:181-194 | after a reset nothing is refused and the count starts at zero |
| CircuitBreaker.OpeningsApart | pkg/circuitbreaker/circuit_breaker.go:118-167 | without resets, consecutive openings are at least the reset timeout apart |
| CircuitBreaker.FailingLoadBound | pkg/circuitbreaker/circuit_breaker.go:118-167 | after any history, a function that always fails runs at most threshold + T / timeout times in a window of length T without resets |
| Consumer.Monotone | internal/infrastructure/kafka/consumer.go:98-185 | what is accounted for below an offset stays so through every step, and committed partitions keep their start |
| Consumer.StepKeepsInv | internal/infrastructure/kafka/consumer.go:80-185 | every step, with crashes, fresh processes, resubscriptions on the same reader and commits in any order, keeps: commits above accounted records only, the reader past nothing but handled, held or dropped records, deliveries increasing |
| Consumer.RunKeepsInv | internal/infrastructure/kafka/consumer.go:80-185 | the invariant holds in every reachable state |
| Consumer.AtLeastOnce | internal/infrastructure/kafka/consumer.go:119-185 | every record below a committed offset and not before the group's start was enqueued, rejected, undecodable or lost its send to cancellation; the last never in runs without a cancelled send |
| Consumer.OnlyAcceptedDelivered | internal/infrastructure/kafka/consumer.go:119-146 | over every run what reached a channel is a message that the filter in force at its decision let pass, what was turned down is a message that the filter in force refused, and an undecodable record is neither |
| Consumer.Decision | internal/infrastructure/kafka/consumer.go:130-146 | a message let pass goes to the send, one turned down and an undecodable record go to their commit without it |
| ConsumerLoss.LossIff | internal/infrastructure/kafka/consumer.go:80-185 | for every reachable state and every unhandled record from the group's start on: some continuation that does not cancel its send commits past it unhandled iff a commit has passed it, this reader dropped it and can commit a later one, or the partition has no commit and a record to follow |
| ConsumerLoss.PlainLossIff | internal/infrastructure/kafka/consumer.go:80-185 | over all continuations, the record can be passed over unhandled iff it is at risk already, or its partition has a commit made or accepted and a later record |
| ConsumerLoss.ReadAgain | internal/infrastructure/kafka/consumer.go:80-185 | from any state with a commit at or below the record, a fresh process reads up to it, loses its send to cancellation and commits a later record |
| ConsumerLoss.LostBehind | internal/infrastructure/kafka/consumer.go:80-95 | from any state a reader that dropped the record and has a later one reaches a commit past it, by resubscribing |
| ConsumerLoss.RunKeeps | internal/infrastructure/kafka/consumer.go:98-185 | a record that is not at risk is never passed over unhandled, whatever happens but the cancellation of its send |
| ConsumerLoss.FreshProcessRestores | internal/infrastructure/kafka/consumer.go:43-77 | a fresh process starts at or before every unhandled record above the committed offset, and then it cannot be lost without its send being cancelled |
| ConsumerLoss.CancelledSendCanBeLost | internal/infrastructure/kafka/consumer.go:179-185 | whenever a send is cancelled while a later record exists, the next subscription of the same process can commit past the message |
| ConsumerLoss.SendIsReached | internal/infrastructure/kafka/consumer.go:98-146 | a group that starts on a message reaches its send |
| Consumer.OriginFixed | internal/infrastructure/kafka/consumer.go:56-66 | once a partition has a committed offset it keeps one and its starting point never moves |
| Consumer.DeliveredInOrder | internal/infrastructure/kafka/consumer.go:98-146 | within a session each partition's delivered offsets strictly increase |
| Consumer.NothingAfterDrop | internal/infrastructure/kafka/consumer.go:179-185 | after a cancelled send the session delivers nothing and requests no further commit |
| ConsumerLoss.UncommittedGroupCanSkip | internal/infrastructure/kafka/consumer.go:56-66 | every message a group starts on can be passed over before the first commit, if another record follows |
| Pipeline.StepConserves | internal/application/service/subscription_service.go:206-243 | every step keeps: enqueued equals sent, handler-held, output buffer, forwarder-held and input buffer in that order |
| Pipeline.RunConserves | internal/application/service/subscription_service.go:206-243 | the same in every state of every run, stopped components included |
| Pipeline.ClientHasPrefix | internal/api/grpc/event_handler.go:153-172 | the client has received a prefix, what is missing is exactly what is in transit, and at most inCap + outCap + 2 committed messages are unsent |
| Pipeline.EverySendArrives | internal/api/grpc/event_handler.go:153-166 | in every run the client has received as many messages as the handler has sent |
| Pipeline.EverythingCanArrive | internal/application/service/subscription_service.go:206-243 | from every reachable state with forwarder and handler up, their steps alone bring everything enqueued to the client and leave every stage empty |
| Pipeline.NothingAfterStop | internal/application/service/subscription_service.go:206-243 | a stopped forwarder or handler does nothing more |
| Pipeline.FillReached | internal/application/service/subscription_service.go:206-243 | for every n up to the bound a run exists that holds n committed messages unsent, stage by stage |
| Pipeline.BoundIsReached | internal/application/service/subscription_service.go:206-243 | the bound is tight for all capacities |
| Delivery.CommittedIsAccountedFor | cmd/gateway/main.go:396-414 | consumer and pipeline together: the client's messages are an in-order prefix of the session, and every committed record is undecodable, rejected, from an earlier session, received, one of boundedly many in transit, or lost its send to cancellation; the last never without a cancelled send |
| Delivery.ClientGetsMessages | cmd/gateway/main.go:396-414 | a client receives a prefix of what its own subscription enqueued, and every piece of it is a message that the filter in force at its decision let pass |
| Delivery.MissingBound | cmd/gateway/main.go:396-414 | over all sessions together, the committed records meant for a client that none received number at most (inCap + outCap + 2) per subscription plus the cancelled sends |
| RateLimiter.TokenBucketLimiter.constructor | internal/infrastructure/ratelimiter/rate_limiter.go:34-48 | starts with no keys |
| RateLimiter.TokenBucketLimiter.AllowKey | internal/infrastructure/ratelimiter/rate_limiter.go:51-64 | an empty key is an error; otherwise admits iff a token is there and makes the step of the run theorems |
| RateLimiter.TokenBucketLimiter.GetOrCreate | internal/infrastructure/ratelimiter/rate_limiter.go:83-105 | returns the key's limiter; a new one is full and leaves the level as it was |
| RateLimiter.TokenBucketLimiter.CleanupStale | internal/infrastructure/ratelimiter/rate_limiter.go:138-162 | undisturbed, the cleanup makes the steps of the run theorems and drops exactly the stale keys from both maps |
| RateLimiter.TokenBucketLimiter.Collect | internal/infrastructure/ratelimiter/rate_limiter.go:138-155 | one visit per access time collects exactly the stale keys |
| RateLimiter.TokenBucketLimiter.Delete | internal/infrastructure/ratelimiter/rate_limiter.go:157-161 | deletes exactly the collected keys, limiter before access time |
| RateLimiter.StaleIsFull | internal/infrastructure/ratelimiter/rate_limiter.go:138-155 | if idling refills, a key found stale has a full bucket at that moment |
| RateLimiter.UndisturbedIsHarmless | internal/infrastructure/ratelimiter/rate_limiter.go:138-162 | if moreover no call is admitted for a key between its collection and its deletion, every limiter is full when it is deleted |
| RateLimiter.AnswersAlike | internal/infrastructure/ratelimiter/rate_limiter.go:51-64 | a history that deletes only full limiters answers every call, and leaves every key, as its calls alone would |
| RateLimiter.EvictUnseenIff | internal/infrastructure/ratelimiter/rate_limiter.go:157-161 | deleting a collected limiter is unobservable by all harmless continuations iff the limiter is full at that moment |
| RateLimiter.EvictionTransparentIff | internal/infrastructure/ratelimiter/rate_limiter.go:138-162 | all histories without an admitted call for a collected key answer as if there were no cleanups iff (staleThreshold + 1 ns) x rate >= burst |
| RateLimiter.CleanupsUnseenIff | internal/infrastructure/ratelimiter/rate_limiter.go:138-162 | all histories, with calls anywhere between collection and deletion, answer so iff the burst is zero |
| RateLimiter.WindowBound | internal/infrastructure/ratelimiter/rate_limiter.go:51-64 | under every configuration a key is allowed at most burst + rate x T calls in any window of length T plus what deletions of its limiter give back, at most a burst each, and nothing if idling refills and no call disturbs a cleanup |
| RateLimiter.AdmittedAtOnce | internal/infrastructure/ratelimiter/rate_limiter.go:51-64 | of calls at one instant as many are admitted as the key has whole tokens |
| RateLimiter.NewKeyGetsBurst | internal/infrastructure/ratelimiter/rate_limiter.go:83-105 | a new key gets exactly its burst at once |
| RateLimiter.LevelRefills | internal/infrastructure/ratelimiter/rate_limiter.go:83-105 | time adds exactly the rate, up to the burst |
| RateLimiter.KeysApart | internal/infrastructure/ratelimiter/rate_limiter.go:51-64 | what a key is allowed does not depend on the calls and deletions of other keys |
| RateLimiter.TwoBurstsAtOnce | internal/infrastructure/ratelimiter/rate_limiter.go:138-162 | a disturbed cleanup lets twice the burst pass at one instant |
| RateLimiter.FindableIff | internal/infrastructure/ratelimiter/rate_limiter.go:157-161 | a limiter that admitted a call keeps its access time through all later cleanups iff the call did not come between the two deletions of its key |
| RateLimiter.StampLost | internal/infrastructure/ratelimiter/rate_limiter.go:138-162 | from an empty limiter, for every positive burst, a call between the two deletions of its key leaves a limiter that no cleanup can find |
| RateLimiter.AllStamped | internal/infrastructure/ratelimiter/rate_limiter.go:51-64 | in histories without such a call every limiter that is not full has an access time |
| Ingestion.Gateway.constructor | internal/application/service/event_service.go:25-39 | starts with no effects |
| Ingestion.Gateway.PrepareBatchEvents | internal/application/service/event_service.go:227-253 | succeeds iff every request has source, type, data and content type and passes the check of the schema it names; each event carries its request's fields, its identifier, clock reading and the batch's correlation; otherwise names the first request that fails |
| Ingestion.Gateway.PrepareAll | internal/application/service/event_service.go:183-199 | the batch's events carry the first request's correlation or a generated one, and identifiers and clock readings in order |
| Ingestion.Gateway.StoreBatchEvents | internal/application/service/event_service.go:256-275 | stores all in order, or exactly the events before the failing one |
| Ingestion.Gateway.PublishBatchEvents | internal/application/service/event_service.go:278-299 | publishes all in order, or exactly the events before the failing one |
| Ingestion.Gateway.IngestEventBatch | internal/application/service/event_service.go:176-223 | the shape and the cause of every outcome: invalid leaves nothing and names the first invalid request; a store failure at i leaves i stored and none published, a publish failure at j all stored and j published, and names the first failing call |
| Ingestion.Gateway.StoreAndPublish | internal/application/service/event_service.go:195-208 | publishing starts only when all is stored, and each stops at its first failing call |
| Ingestion.Gateway.ProcessBatch | internal/api/grpc/event_handler.go:105-130 | success means every request valid, every call succeeded and all stored, published and acknowledged; an error names the first invalid request or the first failing store, publish or send call, and the effects are exactly what it leaves, a proper prefix of the whole |
| Ingestion.Gateway.Acknowledge | internal/api/grpc/event_handler.go:119-127 | acknowledges in order, up to the first failed send |
| Ingestion.Gateway.IngestEventStream | internal/api/grpc/event_handler.go:70-102 | a clean end with valid requests and no failing call, and only that, succeeds with the ideal effects of all requests; a broken connection leaves exactly those of the full chunks; a failure leaves exactly the effects of all chunks before the first failing one and what its error leaves of that chunk |
| Ingestion.Gateway.ReceiveAll | internal/api/grpc/event_handler.go:70-102 | the receive loop processes full batches of exactly 100 and holds the rest; its error is that of the first full chunk to fail, with exactly the effects up to there |
| Ingestion.Gateway.Finish | internal/api/grpc/event_handler.go:76-84 | on a clean end the rest is processed as the last batch; its error is that of the stream, with exactly the effects up to there |
| Ingestion.FailureHasCause | internal/api/grpc/event_handler.go:70-130 | requests with a failed chunk are not all valid with all calls succeeding |
| Ingestion.CauseUnique | internal/application/service/event_service.go:176-299 | a batch's error is determined by its requests and the outcomes of its calls |
| Ingestion.FailureUnique | internal/api/grpc/event_handler.go:70-130 | which chunk of a stream fails, and with which error, is determined |
| Ingestion.IdealSplits | internal/api/grpc/event_handler.go:70-102 | full chunks can be split off: effects and identifiers of the whole are those of the parts in sequence |
| Ingestion.OneEventPerRequest | internal/application/service/event_service.go:89-115 | there are as many events as requests, and the i-th event has every field of the i-th request, with a priority outside 1 to 4 replaced by 2 |
| Ingestion.AcksFollowPublishesFollowStores | internal/api/grpc/event_handler.go:70-130 | in every state of every stream the acknowledged are a prefix of the published, those of the stored, those of the received, in request order |
| Ingestion.OneAckPerRequest | internal/api/grpc/event_handler.go:105-130 | on a clean end there are as many acknowledgements as requests, and the i-th carries the i-th event's identifier |
| Ingestion.ArrivalsAre | internal/api/grpc/event_handler.go:74-100 | a stream's requests are those received before it ends, and it ends cleanly iff the client closes it then |
| Retry.Normalized | pkg/retry/retry.go:82-95 | each setting in range stays, and each other becomes the default, or no retries |
| Retry.BackoffExactIff | pkg/retry/retry.go:135-152 | the backoff is min(initial x multiplier^k, max) iff the exponential fits a duration or its substitute is capped |
| Retry.ExponentialGrows | pkg/retry/retry.go:135-138 | the exponential starts at the initial backoff and grows by the multiplier with every attempt |
| Retry.PromisedIs | pkg/retry/retry.go:135-144 | the promised backoff is the exponential in whole nanoseconds, capped |
| Retry.BackoffGrows | pkg/retry/retry.go:135-152 | with a multiplier of at least one the promised waits never shrink |
| Retry.JitterIff | pkg/retry/retry.go:135-152 | the random draw panics iff the backoff is below 2 ns; otherwise it adds less than half iff the sum fits 64 bits, and makes the wait negative if not |
| Retry.CapKeptIff | pkg/retry/retry.go:135-152 | no draw makes the wait exceed maxBackoff iff there is no jitter, the largest draw still fits under the cap, or the cap is the largest duration |
| Retry.PatientOverflows | pkg/retry/retry.go:31-40 | in the default configuration with 38 retries attempt 37 is the first whose backoff overflows and whose jitter panics, for every draw |
| Retry.PatientPanics | pkg/retry/retry.go:82-152 | so an operation that keeps failing makes 38 calls and 37 waits and ends in that panic |
| Retry.Do | pkg/retry/retry.go:82-132 | success iff the last attempt made succeeded; failure with that attempt's error, and only if it may not be retried or the retries are used up; undisturbed, failure iff every attempt made failed; waits are the computed backoffs; cancellation and panic exactly where they strike |
| Retry.FirstFinalUnique | pkg/retry/retry.go:82-132 | the stopping attempt is unique and at most maxRetries, so an undisturbed run makes exactly that many calls plus one |
| Retry.WholeRunWait | pkg/retry/retry.go:82-152 | however a run ends, all waiting together is at most maxRetries x 3/2 x maxBackoff |
| SchemaCache.SchemaValidator.constructor | internal/infrastructure/schema/validator.go:22-28 | starts empty |
| SchemaCache.SchemaValidator.RegisterSchema | internal/infrastructure/schema/validator.go:31-54 | succeeds iff id and schema are given and the schema compiles, with the errors in order of precedence; a failure changes nothing |
| SchemaCache.SchemaValidator.GetSchema | internal/infrastructure/schema/validator.go:57-81 | returns a schema iff it is there and not expired, and deletes an expired one |
| SchemaCache.SchemaValidator.UnregisterSchema | internal/infrastructure/schema/validator.go:119-135 | removes exactly a known id |
| SchemaCache.SchemaValidator.Clear | internal/infrastructure/schema/validator.go:151-162 | drops exactly the expired entries |
| SchemaCache.SameKeys | internal/infrastructure/schema/validator.go:47-81 | in every interleaving, with GetSchema's critical sections and its test apart, both maps have the same keys |
| SchemaCache.EntryStems | internal/infrastructure/schema/validator.go:31-54 | in every interleaving an entry is that of the id's latest registration, with its time, untouched since |
| SchemaCache.ReadingStems | internal/infrastructure/schema/validator.go:62-65 | in every interleaving what a lookup holds was the current entry of its id when it was read |
| SchemaCache.NeverStale | internal/infrastructure/schema/validator.go:57-81 | in every interleaving, with read, test and deletion apart, what GetSchema returns was registered at most the time to live before its test and was current when read |
| SchemaCache.GetIsSteps | internal/infrastructure/schema/validator.go:57-81 | uninterrupted, the read, the test and the deletion make up the sequential lookup |
| SchemaCache.GetAnswered | internal/infrastructure/schema/validator.go:57-81 | in sequential use a lookup is answered with the registered schema iff its time to live has not passed |
| SchemaCache.Survives | internal/infrastructure/schema/validator.go:57-81 | an entry that no lookup waits to delete and of which no lookup holds an older reading outlives everything that neither registers nor unregisters it within its time to live |
| SchemaCache.RegistrationSafeIff | internal/infrastructure/schema/validator.go:31-81 | on a clock that does not run backwards a fresh registration outlives all that iff no GetSchema waits to delete the id and none in flight holds a reading of it from before |
| SchemaCache.RegistrationLost | internal/infrastructure/schema/validator.go:31-81 | from an empty validator, a lookup that found its entry expired deletes the registration that overtook it |
| SchemaCache.FreshRegistrationLost | internal/infrastructure/schema/validator.go:31-81 | a lookup that had only read when the id was registered again, before anyone found it expired, deletes the new registration one nanosecond later |
| SchemaCache.ClearingUnseen | internal/infrastructure/schema/validator.go:151-162 | in sequential use clearing never changes whether a later GetSchema succeeds nor what it returns |

## Left out

- The Kafka client, gRPC server and interceptors, metrics, logging, configuration, health checks and the wiring in `cmd/gateway`: only channel capacities and the outcomes of writes, fetches, commits and sends appear.
- Generated protobuf code, converters and the accessors of the event entity: field copying.
- The transformer engine and the JSON serializer: they rest on external libraries; serialization is an arbitrary partial function.
- JWT, role tables, the consumer entity and the in-memory consumer and schema repositories: easy members only.
- Subscription filtering and the subscription registry: the broker adapter ignores the filter it is given.
- Progress of consumer, producer and pipeline: only safety is stated, since the adapter's error channel has no reader.
- The time the producer's circuit stays open: a timer that has fired, or successes still in flight, can close it early when publishers overlap.
- Consumer, pipeline and producer circuit are state machines on values, not classes: their steps interleave, which a sequential method cannot express. Aliasing does not occur in them.
- Rebalancing of partitions between consumers of one group, and the offset table kept for inspection.
- Wait of the rate limiter, and cleanup steps that strike between the parts of one Allow.
- The single-event ingest call, nil requests in a batch, and the uniqueness of generated identifiers.
- A publish that fails at the caller although the broker wrote it counts as not published.
- Lookups by identifier, statistics, event age, and the list of schemas.
- Retry.BackoffExactIff: the multiplier is a real number, so floating-point rounding of the exponential is not modelled.
- ReplayStore.InMemoryEventStore.GetLatest: sorting is any newest-first permutation, as the library promises no more for equal times.
- RateLimiter.EvictionTransparentIff: the library's token bucket is taken as documented, in exact arithmetic, and the three parts of one Allow are atomic.
- Ingestion.Gateway.IngestEventBatch: requests are not nil, and metadata and data are values rather than shared references.
