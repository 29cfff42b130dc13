# Verified model of async_hardened_client

`async_hardened_client` is a single-process asynchronous HTTP client. Every request it accepts is
written to SQLite before it is queued, is shared by all callers that ask for the same thing at the same
time, passes a per-host circuit breaker and token bucket, is retried with backoff and ends either in a
response or in a dead-letter queue that an operator can replay. This project models that machinery in
Dafny and proves what it guarantees over whole runs, crashes and restarts included.

`dafny verify dfyconfig.toml` checks everything.

## How the model is built

**The request lifecycle** (`Lifecycle.dfy`) is a step system. One step is the code between two
suspending awaits and every storage commit is a step of its own, so all interleavings of submitters, the
recovery loop, workers, sleeping retries, `stop` and crashes are covered. A *unit* is the work an owner
starts when `get_or_create` hands it a fresh future; whoever is suspended on it (owner, recovery loop,
queue slot, worker, reschedule) carries it. A crash wipes the volatile state and keeps the two tables.
`Invariant.dfy` proves what every step keeps; `Runs`, `Executions`, `Settlement`, `Drain`, `Stop`,
`Startup`, `Recovery`, `Provenance` and `Counting` prove what follows for every run. Breaker verdict, rate-limit wait and HTTP answer are
nondeterministic there.

**The objects** whose fields the source updates in place are classes: the client itself (`Client.dfy`),
the registry, queue and storage (`Components.dfy`), the bucket (`RateLimiter.dfy`) and the breaker
(`CircuitBreaker.dfy`). Their methods are proved against the functions that the step system and the
theorems about histories use.

**Bucket, breaker and retry arithmetic** are proved against whole histories: the lazily refilled level
against the consumption envelope, the breaker's counters against all outcomes ever reported, the delays of
one request against closed bounds. `DeadLetter.dfy` runs replay through the lifecycle.

### Assumptions

- No caller task is cancelled: cancelling an `await future` would cancel the shared future.
- A restart uses a new client object: `stop` never clears the registry.
- Bodies and parameters are JSON values.
- Storage calls succeed and commit atomically; a crash ends the process, not the machine.
- The clock is monotonic and no sleep ends early; time, tokens and delays are reals.
- The configuration is the same across restarts; thresholds, windows, probe counts, burst and rate are
  positive, delays not negative. `stop` is called after `start` has returned.
- SHA-256 over the sorted dump is an arbitrary function `digest` of the hashed payload: "the same key"
  below means the same digest, whether or not digests collide.

### Where code and documentation part

The model follows the code.

- `async_hardened_client/dead_letter.py` (lines 5-7 and 42-46) promises that a row is removed only on
  success and that work is never dropped. The code removes the row first. `DeadLetter.CrashDuringReplay`
  shows that a crash loses the work if and only if it comes after that removal and before the
  re-submission has committed its upsert, and `DeadLetter.ReplayCanLose` that this can happen to every row.
- Recovery is documented as unconditional. It runs before any worker exists and enqueues into the bounded
  queue, while `request` is already accepted. So `start` returns if and only if the items that callers
  have queued by then and the rows whose keys they have not claimed fit into `queue.max_size` together
  (`Startup.StartReturnsIffFits`); otherwise recovery waits on a full queue for ever
  (`Startup.StuckForEver`). When nobody submits, that is more rows than slots (`Recovery.AloneFits`), and
  every such database makes a start hang (`Recovery.OverfullStartHangs`, `Recovery.StartCanHang`). Rows
  that fit can hang too, when a caller has taken up a slot first (`Recovery.FittingStartCanHang`).
- A half-open breaker is documented to end in closed or open. A probe that is answered 429 never reports,
  so a full set of such probes leaves the breaker rejecting every call for ever. It can recover if and only
  if a slot is free or an admitted call is still out (`CircuitBreaker.LeavesUnlessWedged`), and the wedged
  state is reachable under every configuration (`CircuitBreaker.WedgeReachable`). Every later request of
  that host is dead-lettered without being sent (`Client.AsyncHardenedClient.HandleWhileFull`).
- The breaker's header says the threshold and rate must be exceeded; the code opens when they are reached.
- `async_hardened_client/config.py` (lines 40-41) describes jitter as added to the capped backoff; the code
  draws the whole delay between 0 and the capped backoff.
- `async_hardened_client/rate_limiter.py` (lines 10-11) claims FIFO wake-up, but waiters sleep outside the
  lock. Whenever a caller is denied, a later one can be served before it (`RateLimiter.LaterServedFirst`);
  among callers for equally many tokens a later one overtakes if and only if it checks at or after the
  wake-up time of the one denied (`RateLimiter.OvertakesIff`), so service follows the order of checks as
  long as the one denied checks again first (`RateLimiter.ServedInOrder`).

## Model

| member | source | states |
|---|---|---|
| Invariant.Preserved | async_hardened_client/client.py:125-425 | every step of every interleaving, crashes and restarts included, keeps the invariant: one unit per pending key, exact queue and `unfinished` count, rows that agree with the units, every row owned by a unit or still ahead of recovery |
| Runs.Reachable | async_hardened_client/client.py:125-425 | the invariant holds in every state of every run that starts from a database of an earlier life |
| Runs.SingleCarrier | async_hardened_client/client.py:231-261 | in every reachable state two units with the same key are the same unit, pending keys are exactly the keys of units, uncarried units exist only after stop, workers and queue stay within their limits |
| Runs.CountsAgree | async_hardened_client/storage.py:138-206 | a unit between upsert and delete has a row whose retry_count is its attempt, one more between increment and reschedule; no count ever exceeds max_retries |
| Runs.UpsertMeetsNoCarrier | async_hardened_client/storage.py:153-176 | the ON CONFLICT reset never hits the row of another unit |
| Runs.DecidedWitnessed | async_hardened_client/client.py:325-407 | a unit about to delete its row got there by an HTTP success or a DLQ push during the same row lifetime |
| Runs.NoLoss | async_hardened_client/client.py:231-425 | over any run, a row that disappears does so after an HTTP success or a DLQ push for its key within the same row lifetime |
| Executions.ExecutionsPaid | async_hardened_client/client.py:305-396 | while a row exists, executions plus the remaining budget are at most (max_retries + 1) per upsert of the row plus the process ends that left a spent attempt unrecorded |
| Executions.NoResets | async_hardened_client/storage.py:159-163 | when nobody submits before start has returned, no upsert ever hits an existing row |
| Executions.ExecutionBound | async_hardened_client/client.py:305-396 | then a request is executed at most max_retries + 1 times per row lifetime plus once per process end that cut an attempt; with exact drains, plus once per crash |
| Settlement.TrailTaken | async_hardened_client/client.py:279-416 | where a unit stands tells, in order, which answer it got in the same run of `_handle` and which of increment, push and delete have been committed since |
| Settlement.AnswersDecide | async_hardened_client/client.py:279-323 | a retry is recorded only after a transient failure (429, retryable answer, rejection) with attempts left; a dead letter is pushed only after a transient failure without, or, with attempts left, only after a permanent one |
| Settlement.SettlementFollowsRecord | async_hardened_client/client.py:325-416 | a future holds a result only after the HTTP success with that response and then the delete; NonRetryableError only after a permanent failure, DeadLetterError only after a transient one without attempts left, each then followed by push and delete |
| Settlement.SettlesOnce | async_hardened_client/dedup.py:52-62 | a settled future never changes again in the life of the process |
| Settlement.StaysRegistered | async_hardened_client/dedup.py:42-50 | a pending future stays registered under its key until it is settled |
| Settlement.CallersShare | async_hardened_client/dedup.py:35-50 | two callers with one key, the second arriving before the first is answered, await the same future |
| Provenance.SentAsSubmitted | async_hardened_client/client.py:204-256 | whatever is sent is exactly a submitted request, headers included, through any crashes and recoveries, or one that a row of an earlier life restores to |
| Provenance.RowsHaveOrigin | async_hardened_client/storage.py:138-176 | every row restores to the request of the submission whose upsert inserted it, and to no other, with the time of that upsert, for as long as it exists |
| Provenance.DeadLettersTell | async_hardened_client/storage.py:250-273 | every dead letter has key, request, error and attempt number of the unit whose worker pushed it |
| Measures.RunsWithinAllowance | async_hardened_client/client.py:376-399 | the handle runs still ahead of all units are at most the sum of (retries left + 1) over the carried ones |
| Drain.StepLighter | async_hardened_client/client.py:263-425 | every step of an owner, worker or reschedule lowers the total weight, and every handle run is paid for |
| Drain.Progress | async_hardened_client/client.py:263-274 | while some unit is carried somebody can move: full queue and busy workers never deadlock |
| Drain.DrainBound | async_hardened_client/client.py:167-178 | without submissions the remaining steps and handle runs are bounded by the weights of the state |
| Settlement.NobodyForgotten | async_hardened_client/dedup.py:42-62 | in every reachable state a pending future belongs to a unit |
| Drain.DrainEndsQuiescent | async_hardened_client/client.py:167-178 | every maximal sequence of steps of a running client ends with empty queue, no units, no row and every future settled, after at most the sum of (retries left + 1) handle runs |
| Drain.FirstInFirstOut | async_hardened_client/queue.py:55-68 | after d dequeues the first d items are gone and the others still come first, in their order |
| Stop.StopMoves | async_hardened_client/client.py:147-178 | until stop is over somebody can move: a carrier, or the loop of drain when there is none |
| Stop.StopBound | async_hardened_client/client.py:167-178 | every step of the work and of the drain loop lowers a weight that starts at three times the steps the work can take, plus two |
| Stop.StopHalts | async_hardened_client/client.py:147-165 | without new submissions stop comes to its end, after a bounded number of steps, in every order of the work |
| Stop.StopDrains | async_hardened_client/client.py:167-178 | without submissions under way, and with join and check taken as one, it ends with nothing unfinished and no pending reschedule |
| Stop.StopLeavesAbandoned | async_hardened_client/client.py:147-165 | and leaves exactly the rows of the retries it abandoned |
| Stop.SleepersAreAbandoned | async_hardened_client/client.py:418-425 | once stop has been called a sleeping retry is never queued again in that process and keeps its attempt number |
| Startup.StuckForEver | async_hardened_client/client.py:245-261 | once the recovery loop waits for a slot, nothing short of a crash moves it, whatever callers do |
| Startup.StartReturnsIffFits | async_hardened_client/client.py:136-145 | whatever callers submit meanwhile, start returns if and only if the items they have queued and the rows they have not claimed fit in the queue together; otherwise it is stuck on a full queue |
| Startup.RecoveryReplays | async_hardened_client/client.py:245-261 | of the rows reached each was either found claimed or enqueued, once, in the order of the listing, at its saved count; when start returns every row has been reached |
| Startup.LoopIsShort | async_hardened_client/client.py:248-261 | the recovery loop takes one step per row reached and one more to return |
| Recovery.AloneReplays | async_hardened_client/client.py:245-261 | on a start on which nobody submits the queue is a prefix of the listing, at the saved counts |
| Recovery.AloneFits | async_hardened_client/client.py:136-145 | then start returns if and only if the rows fit, and the queue is the listing |
| Recovery.OverloadHangs | async_hardened_client/client.py:245-261 | in any run, whenever what is queued and what recovery has yet to queue exceed the slots, the loop gets stuck if left alone |
| Recovery.OverfullStartHangs | async_hardened_client/client.py:245-261 | every database with more rows than slots has a start that gets stuck without any caller |
| Recovery.StartCanHang | async_hardened_client/client.py:245-261 | such databases exist: the first upserts of any requests with different keys, one more than there are slots |
| Recovery.FittingStartCanHang | async_hardened_client/client.py:204-256 | rows that fill the queue exactly make a start hang when a caller queues one item first |
| Recovery.WorkSurvivesRestart | async_hardened_client/client.py:136-165 | stop, close and a fresh start: the queue is the listing in created_at order, and holds every abandoned retry at its attempt number, each key once, and nothing else |
| Recovery.WorkSurvivesCallers | async_hardened_client/client.py:136-165 | whatever callers submit during the starts after a stop and however many of them crash, when a start returns a live unit carries the key of every abandoned retry, at its saved attempt number unless that request was submitted meanwhile |
| Storage.ListingCounts | async_hardened_client/storage.py:222-244 | the listing has the keys of the table, each once, and as many rows |
| Storage.UnclaimedPrefix | async_hardened_client/client.py:248-256 | what recovery enqueues for a prefix of the rows is a prefix of what it enqueues for all of them |
| Storage.UnclaimedAll | async_hardened_client/client.py:248-256 | on a client nobody has submitted to, recovery has to enqueue every row |
| Storage.ClaimOne | async_hardened_client/client.py:251-260 | a caller that registers the key of an unclaimed row leaves recovery one row less |
| Counting.CountersConserved | async_hardened_client/client.py:239-403 | in every reachable state started = succeeded + failed terminally + undecided, retries = retryable failures, DLQ pushes = terminal failures |
| Counting.CountersCount | async_hardened_client/client.py:239-403 | since a start, each counter equals the number of its own events: starts, successes, transient failures with attempts left, terminal failures |
| Counting.LookupsCounted | async_hardened_client/dedup.py:42-50 | since a start, dedup hits are the `get_or_create` calls that found their key pending and unique requests are the others |
| Models.KeyIdentifies | async_hardened_client/models.py:39-48 | with an injective digest two requests share a key if and only if they have the same method up to case, URL, parameters and body |
| Models.ResubmitKeepsRequest | async_hardened_client/dead_letter.py:50-57 | a re-submission keeps URL, headers, parameters, body and priority; only id, time and the case of the method change |
| Models.ResubmitKeepsKey | async_hardened_client/client.py:219-227 | building the request anew through the public method keeps its key |
| Models.KeySurvives | async_hardened_client/models.py:39-74 | the key survives storage, restoration and re-submission |
| Components.InFlightRegistry.GetOrCreate | async_hardened_client/dedup.py:35-50 | owner exactly when the key was not registered; the future returned is the one registered and pending; distinct keys keep distinct futures |
| Components.InFlightRegistry.Settle | async_hardened_client/dedup.py:52-62 | pops the key and settles its future; settled futures keep their outcome |
| Components.RequestQueue.constructor | async_hardened_client/queue.py:37-41 | a new queue is empty and has its capacity |
| Components.RequestQueue.Enqueue | async_hardened_client/queue.py:55-57 | appends and counts the item exactly when a slot is free, and otherwise changes nothing |
| Components.RequestQueue.Create | async_hardened_client/queue.py:37-41 | refuses a size that is not positive and otherwise gives a valid empty queue |
| Components.RequestQueue.Dequeue | async_hardened_client/queue.py:67-68 | takes the oldest item and keeps the others in order; nothing is taken where `get` would wait |
| Components.RequestQueue.TaskDone | async_hardened_client/queue.py:70-71 | lowers the unfinished count, and raises exactly when there is nothing unfinished |
| Components.Database.UpsertInflight | async_hardened_client/storage.py:138-176 | a new row restores to exactly the request given and has the time given; an existing one has its retry count reset and keeps payload and created_at; no other row changes |
| Components.Database.IncrementRetry | async_hardened_client/storage.py:192-212 | adds one to the count of an existing row and returns it, or returns 0 |
| Components.Database.DeleteInflight | async_hardened_client/storage.py:214-220 | removes the row of the key and no other |
| Components.Database.PushDeadLetter | async_hardened_client/storage.py:250-273 | appends, whatever keys are there, a row under a new id with the key, error and count given that restores to exactly the request given |
| Components.Database.RemoveDeadLetter | async_hardened_client/storage.py:301-306 | removes the rows with that id and keeps the others in order |
| Client.RecoveredNext | async_hardened_client/client.py:248-256 | one more row either extends what is recovered, in order and at its saved count, or finds the queue full with rows left over |
| Client.AsyncHardenedClient.constructor | async_hardened_client/client.py:109-121 | a new client has an empty registry, an empty queue and zero counters |
| Client.AsyncHardenedClient.Submit | async_hardened_client/client.py:231-243 | a pending key only attaches; an owner's row is upserted and its item queued at attempt 0 if a slot is free, and the future returned is registered and pending |
| Client.AsyncHardenedClient.RecoverRow | async_hardened_client/client.py:248-260 | a claimed row counts a dedup hit, an unclaimed one is registered and queued or waits for a slot |
| Client.AsyncHardenedClient.RecoverInflight | async_hardened_client/client.py:245-261 | gets stuck if and only if the unclaimed rows do not fit; what is queued are those rows in order, each once, at the saved count; counters match |
| Client.AsyncHardenedClient.HandleRetryOrDlq | async_hardened_client/client.py:367-416 | retries exactly when the error is retryable and attempts are left, with the increment committed and the backoff delay of the policy; otherwise pushes, deletes and fails the future with the right error |
| Client.AsyncHardenedClient.Conclude | async_hardened_client/client.py:290-339 | an item leaves with its row at the new attempt and its future pending, or with its row gone and its future settled, the DLQ one row longer exactly on failure; no other key is touched |
| Client.AsyncHardenedClient.Handle | async_hardened_client/client.py:276-339 | the same with the verdict of the host's breaker, stated in the breaker's fields: what a success, a failure and a 429 do to run, window and state, and how long a rejected or throttled item waits |
| Client.OnlyThrottleIsSilent | async_hardened_client/client.py:304-325 | a half-open breaker stays half-open after a call it admits if and only if the answer is a 429 |
| Client.ClassifiedByClass | async_hardened_client/errors.py:51-55 | 2xx and 3xx are served, 5xx and 429 are tried again, everything else is given up |
| Client.HearsTold | async_hardened_client/client.py:304-325 | a success ends the breaker's failure run and leaves it closed, a failure lengthens the run and opens a breaker that was not closed, a 429 or a rejection changes neither run nor window |
| Client.WaitsAsTold | async_hardened_client/client.py:380-387 | a retry waits for what is left of the cool-down that rejected it, or for the Retry-After of its answer, cut at max_delay |
| Client.AsyncHardenedClient.HandleWhileFull | async_hardened_client/client.py:276-425 | an item whose host has a half-open breaker with all slots taken and nobody left to report is never served: it is dead-lettered after as many handle runs as it has attempts left, and the breaker stays as it is |
| Client.AsyncHardenedClient.Reschedule | async_hardened_client/client.py:418-425 | queues the item when a slot is free and stop has not been called, and otherwise changes nothing |
| RateLimiter.LevelTight | async_hardened_client/rate_limiter.py:43-70 | after any checks the lazily refilled level is the least room burst + rate * elapsed - consumption over all instants of the run |
| RateLimiter.BucketIsEnvelope | async_hardened_client/rate_limiter.py:43-70 | a request is granted if and only if, for every instant of the run, consumption since then plus the request is at most burst + rate * elapsed |
| RateLimiter.ConsumptionBounded | async_hardened_client/rate_limiter.py:61-65 | in no window of a run more than burst + rate * length is consumed |
| RateLimiter.DenialMeansGrant | async_hardened_client/rate_limiter.py:59-70 | a waiter denied after its sleep implies a grant to another since its last check |
| RateLimiter.AcquireTerminates | async_hardened_client/rate_limiter.py:59-70 | of n callers none is denied more than n times, whatever the wake-up order, so each is served by pass n + 1 |
| RateLimiter.OvertakesIff | async_hardened_client/rate_limiter.py:61-70 | after a denial another caller for as many tokens is granted first if and only if it checks at or after the wake-up time of the one denied |
| RateLimiter.ServedInOrder | async_hardened_client/rate_limiter.py:61-70 | nobody is granted before the wake-up time of the one denied first, and then it is granted if it checks first |
| RateLimiter.LaterServedFirst | async_hardened_client/rate_limiter.py:61-70 | whenever a caller is denied there are legal checks that serve a later caller before it |
| RateLimiter.TokenBucket.constructor | async_hardened_client/rate_limiter.py:26-36 | a new bucket is full |
| RateLimiter.TokenBucket.Create | async_hardened_client/rate_limiter.py:26-36 | refuses a rate or burst that is not positive and otherwise gives a full bucket |
| RateLimiter.TokenBucket.Tokens | async_hardened_client/rate_limiter.py:38-41 | the snapshot is what a refill at that time would leave |
| RateLimiter.TokenBucket.DoRefill | async_hardened_client/rate_limiter.py:43-48 | the fields become the refilled level |
| RateLimiter.TokenBucket.Acquire | async_hardened_client/rate_limiter.py:50-70 | refused exactly above capacity; otherwise served at once or after one sleep of exactly the time the missing tokens need |
| CircuitBreaker.SummaryRefinesHistory | async_hardened_client/circuit_breaker.py:83-115 | consecutive failures are the trailing failure run of the whole history, the deque is the last window of outcomes since the last close, closed means a run below the threshold |
| CircuitBreaker.RateReaches | async_hardened_client/circuit_breaker.py:105-115 | the failure rate reaches a share exactly when the number of failures in the window reaches that share of its size |
| CircuitBreaker.OpensExactlyWhen | async_hardened_client/circuit_breaker.py:93-109 | a closed breaker opens exactly on a failure after which the last failure_threshold outcomes are failures, or the given share of the last rolling_window since the last close are |
| CircuitBreaker.AdmitsExactlyWhen | async_hardened_client/circuit_breaker.py:61-81 | a call is admitted exactly when the breaker is closed, or open_seconds have passed since the latest opening, or fewer calls than there are probes have been admitted since |
| CircuitBreaker.OpeningsApart | async_hardened_client/circuit_breaker.py:61-120 | any two openings are at least open_seconds apart |
| CircuitBreaker.NoAdmissionWhileCooling | async_hardened_client/circuit_breaker.py:67-81 | no call is admitted within open_seconds of an opening |
| CircuitBreaker.ProbesBounded | async_hardened_client/circuit_breaker.py:76-81 | from an opening until the next opening or close at most half_open_max_probes calls are admitted, as many as are counted |
| CircuitBreaker.ProbesAreCounted | async_hardened_client/circuit_breaker.py:69-91 | over any calls and reports a half-open breaker has between 1 and the maximum of probes, exactly those admitted since entry, none of which has reported |
| CircuitBreaker.WedgedForever | async_hardened_client/client.py:304-325 | with all slots taken and nobody left to report, every later call is rejected |
| CircuitBreaker.LeavesUnlessWedged | async_hardened_client/client.py:304-325 | a half-open breaker can leave that state if and only if a slot is free or an admitted call is active |
| CircuitBreaker.WedgeReachable | async_hardened_client/client.py:304-325 | every configuration has a history, in the order of a monotonic clock, that wedges a new breaker |
| CircuitBreaker.CircuitBreaker.constructor | async_hardened_client/circuit_breaker.py:42-51 | a new breaker is closed with an empty history |
| CircuitBreaker.CircuitBreaker.Enter | async_hardened_client/circuit_breaker.py:61-81 | verdict and new fields are those of the gate: cool-down, half-open entry, probe slot |
| CircuitBreaker.CircuitBreaker.Append | async_hardened_client/circuit_breaker.py:50 | the deque keeps the last rolling_window outcomes |
| CircuitBreaker.CircuitBreaker.Success | async_hardened_client/circuit_breaker.py:83-91 | resets the run, records the outcome, closes and clears a half-open breaker |
| CircuitBreaker.CircuitBreaker.Failure | async_hardened_client/circuit_breaker.py:93-109 | records the failure and opens on a failed probe, the threshold or the full-window rate |
| CircuitBreaker.CircuitBreaker.Trip | async_hardened_client/circuit_breaker.py:117-120 | opens now with no probes |
| CircuitBreaker.CircuitBreaker.RateOfFailure | async_hardened_client/circuit_breaker.py:111-115 | the loop computes the share that times the size of the window is the number of failures in it |
| Retry.DoubledIsPower | async_hardened_client/retry.py:52 | repeated doubling is base * 2^n |
| Retry.TimesIsProduct | async_hardened_client/retry.py:45-46 | repeated addition is n * x |
| Retry.TargetMonotone | async_hardened_client/retry.py:48-54 | the jitter-free delay never decreases with the attempt and never exceeds max_delay |
| Retry.BackoffExact | async_hardened_client/retry.py:45-56 | the delay is a positive Retry-After, or else base * 2^attempt or the draw below it, each of the first two cut at max_delay |
| Retry.BackoffRange | async_hardened_client/retry.py:45-56 | for any draw the delay lies between 0 and max_delay, and without a positive Retry-After it is at most base * 2^attempt |
| Retry.TotalDelayCapped | async_hardened_client/retry.py:31-56 | n retries wait at most n * max_delay in all |
| Retry.TotalDelayGeometric | async_hardened_client/retry.py:48-56 | without a positive Retry-After they wait at most base * (2^n - 1) in all |
| Retry.TotalDelayExact | async_hardened_client/retry.py:48-54 | without jitter and Retry-After, as long as no delay is cut, they wait exactly base * (2^n - 1) in all |
| Retry.RequestDelayBounded | async_hardened_client/retry.py:25-28 | the delays of one request sum to at most max_retries * max_delay |
| BreakerRetry.RejectionCarries | async_hardened_client/circuit_breaker.py:69-80 | a rejection carries a positive retry_after of at most open_seconds exactly when the cool-down made it, and 0 otherwise |
| BreakerRetry.RejectedOncePerOpening | async_hardened_client/retry.py:45-46 | when open_seconds is at most max_delay, the cool-down of one opening turns a request away at most once |
| BreakerRetry.CutShortIffRejected | async_hardened_client/retry.py:45-46 | a retry that comes back on time meets the same cool-down if and only if max_delay cut its wait short |
| DeadLetter.RequestServed | async_hardened_client/client.py:231-243 | on a quiescent client a served request has its future settled and the DLQ has gained its row exactly when it failed |
| DeadLetter.CanFinish | async_hardened_client/client.py:263-274 | from every running state the client can carry on to quiescence |
| DeadLetter.ServerExists | async_hardened_client/client.py:263-425 | a client with workers and a queue can serve every request |
| DeadLetter.RemoveTakesOne | async_hardened_client/storage.py:301-306 | removing by id takes one row and its key out and leaves every other row |
| DeadLetter.DeadTableGood | async_hardened_client/storage.py:250-306 | over any run DLQ ids stay unique and every DLQ row restores to a request that hashes to its key |
| DeadLetter.ReplayEntry | async_hardened_client/dead_letter.py:37-67 | the state afterwards is that of removing the row, submitting its request and serving it; the DLQ keys lose the key of the row exactly when the replay succeeded; all other rows stay |
| DeadLetter.ReplayAll | async_hardened_client/dead_letter.py:70-78 | one result per row of the snapshot, and the keys afterwards are those before minus the ones that succeeded, with multiplicity |
| DeadLetter.CrashDuringReplay | async_hardened_client/dead_letter.py:42-50 | wherever a replay is cut by a crash, from the removal of its row on, the work is in neither table and was not served if and only if no upsert was committed |
| DeadLetter.ReplayCanLose | async_hardened_client/dead_letter.py:48-57 | from every quiescent state, a crash right after the re-submission is registered leaves the DLQ one row short of that key and no inflight row |

## Left out

- Client.AsyncHardenedClient.Handle: runs without interruption and without the rate limiter, whose wait comes between verdict and request; the interleavings of its commits with everything else are those of the step system, which works on values and does not capture aliasing.
- Client.AsyncHardenedClient.Submit: says what is committed and queued, not in which order; that the row is there before the item is queued is `Runs.CountsAgree` over the steps.
- Client.AsyncHardenedClient.Reschedule: the sleep and the wait for a slot are steps of the lifecycle.
- Client.AsyncHardenedClient.RecoverInflight: takes the result of the listing as a parameter and returns where the source would wait on a full queue that no worker empties.
- Components.RequestQueue.Enqueue: stands for one attempt of `put`; waiting for a slot is a step of the lifecycle.
- Components.RequestQueue.constructor: the allocation behind Create, which models the ValueError.
- RateLimiter.TokenBucket.constructor: the allocation behind Create, which models the ValueError.
- RateLimiter.TokenBucket.Acquire: the caller has the bucket to itself; contention is proved on the polls of many waiters in AcquireTerminates.
- Models.ResubmitKeepsKey: `str.upper` is modelled on ASCII letters, which is what HTTP methods consist of; likewise KeySurvives.
- Recovery.WorkSurvivesRestart: nobody submits during the stop and the start after it; with callers during the start, WorkSurvivesCallers says what remains true. Submissions during the stop itself are not covered by either.
- DeadLetter.ReplayAll: assumes a quiescent client that does not crash, and holds for every order of the rows, of which newest first is one; likewise ReplayEntry, whose result names the kind of the error and not its text.
- In the lifecycle the breaker's verdict, the rate limiter's wait and the sleep of a reschedule are nondeterministic; their timing is proved in their own modules.
- A worker that stop cancels in the middle of a storage call stays where it was, although the database thread may still commit that call. This matters only when the check of `drain` does not see what `join` saw.
- HTTP itself (session, headers, body decoding, the transport exceptions) is a nondeterministic outcome.
- SQL text, WAL mode, power loss, `mark_inflight_status` and the columns that nothing reads back.
- The per-host registries of buckets and breakers, `set_override` and `host_of`.
- Floating-point rounding, clock resolution and the parsing of Retry-After (section 10.2.3 of RFC 9110).
- `discard`, `try_enqueue` and priority, which the lifecycle does not use.
- Response hook, logging, metrics snapshot, command line, purge, demo and mock server.
