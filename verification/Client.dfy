/**
  The methods of the client (async_hardened_client/client.py) over the objects they change.  Each runs
  here without interruption; the lifecycle cuts the same methods into steps and interleaves them.  What
  the breaker, the rate limiter and the upstream answer are parameters.
*/
module Client {
  import opened Models
  import Storage
  import Dedup
  import opened Components
  import opened Lifecycle
  import Retry
  import Breaker = CircuitBreaker

  datatype QueueItem = QueueItem(request: Request, attempt: nat)

  /** What `_reschedule` is started with. */
  datatype Resched = Resched(item: QueueItem, delay: real)

  /** What is enqueued for `rows`: each request at its saved retry count. */
  function Items(rows: seq<Storage.InflightRow>): seq<QueueItem> {
    seq(|rows|, i requires 0 <= i < |rows| => QueueItem(rows[i].request, rows[i].retryCount))
  }

  lemma ItemsPush(rows: seq<Storage.InflightRow>, row: Storage.InflightRow)
    ensures Items(rows + [row]) == Items(rows) + [QueueItem(row.request, row.retryCount)]
  {
  }

  lemma ItemsPrefix(rows: seq<Storage.InflightRow>, more: seq<Storage.InflightRow>)
    requires rows <= more
    ensures Items(rows) == Items(more)[..|rows|]
  {
  }

  lemma NextIsNew(rows: seq<Storage.InflightRow>, i: nat)
    requires Storage.DistinctKeys(rows) && i < |rows|
    ensures rows[i].key !in Storage.KeysOf(rows[..i])
  {
  }

  /** What the recovery loop changes: the registered keys, the queue and two counters. */
  datatype Front = Front(claimed: set<Key>, items: seq<QueueItem>, started: nat, dedupHits: nat)

  function RecoverOne(front: Front, row: Storage.InflightRow, stuck: bool): Front {
    if row.key in front.claimed then front.(dedupHits := front.dedupHits + 1)
    else Front(front.claimed + {row.key},
               if stuck then front.items else front.items + [QueueItem(row.request, row.retryCount)],
               front.started + 1,
               front.dedupHits)
  }

  /** Every row is registered; those that were not are enqueued in order, once each, at their saved count. */
  predicate Recovered(start: Front, front: Front, rows: seq<Storage.InflightRow>) {
    var todo := Storage.Unclaimed(rows, start.claimed);
    && front.claimed == start.claimed + Storage.KeysOf(rows)
    && front.items == start.items + Items(todo)
    && front.started == start.started + |todo|
    && front.dedupHits == start.dedupHits + |rows| - |todo|
  }

  /** The queue is full of such rows, and one more is waiting for a slot. */
  predicate Stuck(start: Front, front: Front, rows: seq<Storage.InflightRow>, maxSize: nat) {
    var todo := Items(Storage.Unclaimed(rows, start.claimed));
    && |front.items| == maxSize && start.items <= front.items < start.items + todo
    && front.started == start.started + (maxSize - |start.items|) + 1
  }

  lemma RecoveredNext(start: Front, front: Front, rows: seq<Storage.InflightRow>, i: nat, stuck: bool, maxSize: nat)
    requires i < |rows| && Storage.DistinctKeys(rows) && Recovered(start, front, rows[..i])
    requires stuck <==> rows[i].key !in front.claimed && |front.items| == maxSize
    ensures !stuck ==> Recovered(start, RecoverOne(front, rows[i], stuck), rows[..i + 1])
    ensures stuck ==> Stuck(start, RecoverOne(front, rows[i], stuck), rows, maxSize)
    ensures stuck ==> |start.items| + |Storage.Unclaimed(rows, start.claimed)| > maxSize
  {
    var done := Storage.Unclaimed(rows[..i], start.claimed);
    Storage.UnclaimedNext(rows, start.claimed, i);
    Storage.KeysNext(rows, i);
    NextIsNew(rows, i);
    ItemsPush(done, rows[i]);
    if stuck {
      Storage.UnclaimedPrefix(rows, start.claimed, i);
      Storage.UnclaimedPrefix(rows, start.claimed, i + 1);
      ItemsPrefix(done, Storage.Unclaimed(rows, start.claimed));
    }
  }

  lemma RecoveredFits(start: Front, front: Front, rows: seq<Storage.InflightRow>)
    requires Recovered(start, front, rows)
    ensures |start.items| + |Storage.Unclaimed(rows, start.claimed)| == |front.items|
  {
  }

  /** What was queued behind `before`: the requests of the first rows of `todo`, at their saved counts. */
  ghost predicate QueuedRows(before: seq<QueueItem>, after: seq<QueueItem>, todo: seq<Storage.InflightRow>) {
    && |before| <= |after| <= |before| + |todo| && after[..|before|] == before
    && forall k :: |before| <= k < |after| ==>
         after[k].request == todo[k - |before|].request && after[k].attempt == todo[k - |before|].retryCount
  }

  lemma QueuedAsSaved(start: Front, front: Front, rows: seq<Storage.InflightRow>, stuck: bool, maxSize: nat)
    requires if stuck then Stuck(start, front, rows, maxSize) else Recovered(start, front, rows)
    ensures QueuedRows(start.items, front.items, Storage.Unclaimed(rows, start.claimed))
  {
    var todo, before := Storage.Unclaimed(rows, start.claimed), |start.items|;
    var all := start.items + Items(todo);
    assert front.items <= all;
    forall k | before <= k < |front.items|
      ensures front.items[k] == QueueItem(todo[k - before].request, todo[k - before].retryCount)
    {
      assert front.items[k] == all[k] == Items(todo)[k - before];
    }
  }

  predicate Admits(b: Breaker.Breaker, cfg: Breaker.Config, now: real) { Breaker.Gate(cfg, b, now) == Breaker.Admitted }

  /** How `_execute` and `_handle` split the statuses. */
  function Classify(status: int, response: int): Outcome {
    if 200 <= status < 400 then Success(response)
    else if Retry.IsRetryableStatus(status) then (if status == 429 then Throttled else Transient)
    else Permanent
  }

  /** What `_handle` tells the breaker of an admitted call: success, failure, or nothing. */
  function Reported(outcome: Outcome): Option<bool> {
    match outcome
    case Success(_) => Some(true)
    case Throttled => None
    case Transient => Some(false)
    case Permanent => Some(false)
  }

  /** The breaker after a call at `now` whose outcome is known at `later`. */
  function Told(cfg: Breaker.Config, b: Breaker.Breaker, now: real, later: real, outcome: Outcome): Breaker.Breaker {
    var b' := Breaker.BeforeCall(cfg, b, now);
    var told := if Admits(b, cfg, now) then Reported(outcome) else None;
    if told == None then b' else if told.value then Breaker.OnSuccess(cfg, b') else Breaker.OnFailure(cfg, b', later)
  }

  /**
    What the breaker learns, in its own fields: a success ends the failure run and leaves it closed; a
    failure lengthens the run and opens it unless it was closed; a 429 or a rejection teaches it nothing.
  */
  predicate Hears(
    cfg: Breaker.Config, b: Breaker.Breaker, b': Breaker.Breaker, now: real, later: real, outcome: Outcome)
  {
    if !Admits(b, cfg, now) || outcome.Throttled? then
      && b'.consecutiveFailures == b.consecutiveFailures && b'.outcomes == b.outcomes && b'.openedAt == b.openedAt
      && (b'.state == Breaker.Closed <==> b.state == Breaker.Closed)
    else if outcome.Success? then
      && b'.consecutiveFailures == 0 && b'.state == Breaker.Closed && b'.openedAt == b.openedAt
      && b'.outcomes == if b.state == Breaker.Closed then Breaker.LastN(b.outcomes + [true], cfg.rollingWindow) else []
    else
      && b'.consecutiveFailures == b.consecutiveFailures + 1
      && b'.outcomes == Breaker.LastN(b.outcomes + [false], cfg.rollingWindow)
      && (b.state != Breaker.Closed ==> b'.state == Breaker.Open)
      && (b'.state == Breaker.Open ==> b'.openedAt == later)
  }

  lemma HearsTold(cfg: Breaker.Config, b: Breaker.Breaker, now: real, later: real, outcome: Outcome)
    ensures Hears(cfg, b, Told(cfg, b, now, later, outcome), now, later, outcome)
  {
  }

  /** How long a rescheduled item sleeps when it has been told how long: by the cool-down or by the server. */
  predicate Waits(
    cfg: Breaker.Config, b: Breaker.Breaker, policy: Retry.Policy, now: real, retryAfter: Option<real>, delay: real)
  {
    var cooling := cfg.openSeconds - (now - b.openedAt);
    && (b.state == Breaker.Open && cooling > 0.0 ==>
          delay == if cooling <= policy.maxDelay then cooling else policy.maxDelay)
    && (Admits(b, cfg, now) && retryAfter.Some? && retryAfter.value > 0.0 ==>
          delay == if retryAfter.value <= policy.maxDelay then retryAfter.value else policy.maxDelay)
  }

  lemma WaitsAsTold(
    cfg: Breaker.Config, b: Breaker.Breaker, policy: Retry.Policy, attempt: nat, now: real, draw: Retry.Draw)
    ensures Waits(cfg, b, policy, now, draw.retryAfter,
                  Retry.BackoffSeconds(policy, attempt, Hint(cfg, b, now, draw.retryAfter), draw.uniform))
  {
  }

  /** The classes of section 15 of RFC 9110: 2xx and 3xx are served, 5xx and 429 tried again, the rest given up. */
  lemma ClassifiedByClass(status: int, response: int)
    requires 100 <= status < 600
    ensures
      match Classify(status, response)
      case Success(r) => (status / 100 == 2 || status / 100 == 3) && r == response
      case Throttled => status == 429
      case Transient => status / 100 == 5
      case Permanent => status / 100 == 1 || (status / 100 == 4 && status != 429)
  {
  }

  /** A half-open breaker stays half-open after a call it admits if and only if the answer is a 429. */
  lemma OnlyThrottleIsSilent(
    cfg: Breaker.Config, b: Breaker.Breaker, now: real, later: real, status: int, response: int)
    requires b.state == Breaker.HalfOpen && Admits(b, cfg, now)
    ensures Told(cfg, b, now, later, Classify(status, response)).state == Breaker.HalfOpen <==> status == 429
  {
  }

  /** All probe slots are taken; with nobody left to report, that is how the breaker stays. */
  predicate IsFull(cfg: Breaker.Config, b: Breaker.Breaker) {
    b.state == Breaker.HalfOpen && b.inflightProbes >= cfg.halfOpenMaxProbes
  }

  /** A full breaker admits nothing and hears nothing, so that a retry waits only for its own backoff. */
  lemma FullStaysFull(
    cfg: Breaker.Config, b: Breaker.Breaker, now: real, later: real, outcome: Outcome, retryAfter: Option<real>)
    requires IsFull(cfg, b)
    ensures !Admits(b, cfg, now) && Told(cfg, b, now, later, outcome) == b && Hint(cfg, b, now, retryAfter) == Some(0.0)
  {
  }

  /** The wait a failure asks for: that of the breaker when it rejects, else the Retry-After of the answer. */
  function Hint(cfg: Breaker.Config, b: Breaker.Breaker, now: real, retryAfter: Option<real>): Option<real> {
    if Admits(b, cfg, now) then retryAfter else Some(Breaker.Gate(cfg, b, now).retryAfter)
  }

  /** The DLQ row of an item: its request, why it failed, and how often it had been retried. */
  ghost predicate DeadLettered(row: Storage.DeadRow, key: Key, item: QueueItem, error: Storage.ErrorKind) {
    && row.key == key && row.error == error && row.retryCount == item.attempt
    && forall r :: Storage.Restores(row.payload, r) <==> r == item.request
  }

  class AsyncHardenedClient {
    const c: Config
    const policy: Retry.Policy
    const registry: InFlightRegistry
    const queue: RequestQueue<QueueItem>
    const db: Database
    var counters: Counters

    ghost predicate Valid()
      reads this, registry, queue
    {
      registry.Valid() && queue.Valid() && queue.maxSize == c.maxSize && policy.maxRetries == c.maxRetries
    }

    constructor (c: Config, policy: Retry.Policy, db: Database)
      requires c.maxSize > 0 && policy.maxRetries == c.maxRetries
      ensures Valid() && fresh(registry) && fresh(queue)
      ensures this.c == c && this.policy == policy && this.db == db && counters == ZERO_COUNTERS
      ensures registry.View() == Dedup.EMPTY_REGISTRY && queue.items == [] && queue.unfinished == 0
    {
      this.c, this.policy, this.db, counters := c, policy, db, ZERO_COUNTERS;
      registry := new InFlightRegistry();
      queue := new RequestQueue(c.maxSize);
    }

    /**
      `_submit`, up to the await of the future: a key already pending changes nothing but the dedup
      counter; an owner has persisted its request before it enqueues it.
    */
    method Submit(req: Request, now: real) returns (future: nat, enqueued: bool)
      requires Valid()
      modifies this`counters, registry, queue, db
      ensures Valid()
      ensures
        var key := IdempotencyKey(c.digest, req);
        && Dedup.IsPending(registry.View(), key) && registry.inflight[key] == future
        && if key in old(registry.inflight) then
             && future == old(registry.inflight)[key] && !enqueued
             && db.View() == old(db.View()) && queue.items == old(queue.items) && counters == old(counters)
           else
             && future == old(registry.created) && (enqueued <==> |old(queue.items)| < c.maxSize)
             && db.View() == Storage.UpsertInflight(old(db.View()), key, req, now)
             && key in db.rows && db.rows[key].retryCount == 0
             && (key !in old(db.rows) ==> forall r :: Storage.Restores(db.rows[key].payload, r) <==> r == req)
             && queue.items == old(queue.items) + (if enqueued then [QueueItem(req, 0)] else [])
             && counters == old(counters).(started := old(counters).started + 1)
    {
      var key := IdempotencyKey(c.digest, req);
      var owner;
      future, owner := registry.GetOrCreate(key);
      if !owner {
        return future, false;
      }
      db.UpsertInflight(key, req, now);
      counters := counters.(started := counters.started + 1);
      enqueued := queue.Enqueue(QueueItem(req, 0));
    }

    function View(): Front
      reads this, registry, queue
    {
      Front(registry.inflight.Keys, queue.items, counters.started, registry.dedupHits)
    }

    /** One iteration of the recovery loop. */
    method RecoverRow(row: Storage.InflightRow) returns (stuck: bool)
      requires Valid()
      modifies this`counters, registry, queue
      ensures Valid() && View() == RecoverOne(old(View()), row, stuck)
      ensures stuck <==> row.key !in old(registry.inflight) && |old(queue.items)| == c.maxSize
      ensures counters == old(counters).(started := counters.started)
    {
      var _, owner := registry.GetOrCreate(row.key);
      if !owner {
        return false;
      }
      counters := counters.(started := counters.started + 1);
      var done := queue.Enqueue(QueueItem(row.request, row.retryCount));
      return !done;
    }

    /** The recovery loop. */
    method RecoverRows(rows: seq<Storage.InflightRow>) returns (stuck: bool)
      requires Valid() && Storage.DistinctKeys(rows)
      modifies this`counters, registry, queue
      ensures Valid()
      ensures stuck <==> |old(queue.items)| + |Storage.Unclaimed(rows, old(registry.inflight).Keys)| > c.maxSize
      ensures !stuck ==> Recovered(old(View()), View(), rows)
      ensures stuck ==> Stuck(old(View()), View(), rows, c.maxSize)
      ensures QueuedRows(old(queue.items), queue.items, Storage.Unclaimed(rows, old(registry.inflight).Keys))
      ensures counters == old(counters).(started := counters.started)
    {
      ghost var start := View();
      for i := 0 to |rows|
        invariant Valid() && Recovered(start, View(), rows[..i])
        invariant counters == old(counters).(started := counters.started)
      {
        ghost var front := View();
        stuck := RecoverRow(rows[i]);
        RecoveredNext(start, front, rows, i, stuck, c.maxSize);
        if stuck {
          QueuedAsSaved(start, View(), rows, true, c.maxSize);
          return;
        }
      }
      assert rows[..|rows|] == rows;
      QueuedAsSaved(start, View(), rows, false, c.maxSize);
      RecoveredFits(start, View(), rows);
      return false;
    }

    /**
      `_recover_inflight` on what `list_inflight` returned, before any worker runs.  It gets stuck on a
      full queue if and only if the rows that no caller has claimed do not fit; what it has enqueued by
      then, or in all, are those rows in order, each once and at its saved count.
    */
    method RecoverInflight(rows: seq<Storage.InflightRow>) returns (stuck: bool)
      requires Valid() && Storage.ListsInflight(db.View(), rows)
      modifies this`counters, registry, queue
      ensures Valid()
      ensures stuck <==> |old(queue.items)| + |Storage.Unclaimed(rows, old(registry.inflight).Keys)| > c.maxSize
      ensures !stuck ==> Recovered(old(View()), View(), rows)
      ensures stuck ==> Stuck(old(View()), View(), rows, c.maxSize)
      ensures QueuedRows(old(queue.items), queue.items, Storage.Unclaimed(rows, old(registry.inflight).Keys))
      ensures counters == old(counters).(started := counters.started)
    {
      Storage.ListingCounts(db.View(), rows);
      stuck := RecoverRows(rows);
    }

    /**
      `_handle_retry_or_dlq`: what to reschedule and when, or nothing when the request was dead-lettered and
      its future failed.
    */
    method HandleRetryOrDlq(item: QueueItem, retryable: bool, draw: Retry.Draw) returns (next: Option<Resched>)
      requires Valid()
      modifies this`counters, registry, db
      ensures Valid()
      ensures next.Some? <==> retryable && item.attempt < c.maxRetries
      ensures
        var key := IdempotencyKey(c.digest, item.request);
        var n, error := old(counters), if retryable then Storage.DeadLetterError else Storage.NonRetryableError;
        if next.Some? then
          && next.value.item == QueueItem(item.request, item.attempt + 1)
          && next.value.delay == Retry.BackoffSeconds(policy, item.attempt, draw.retryAfter, draw.uniform)
          && db.rows.Keys == old(db.rows).Keys && db.rows - {key} == old(db.rows) - {key} && db.dead == old(db.dead)
          && (key in db.rows ==> db.rows[key] == old(db.rows)[key].(retryCount := old(db.rows)[key].retryCount + 1))
          && registry.View() == old(registry.View())
          && counters == n.(failedRetryable := n.failedRetryable + 1, retriesPerformed := n.retriesPerformed + 1)
        else
          && db.rows == old(db.rows) - {key} && |db.dead| == |old(db.dead)| + 1
          && db.dead[..|old(db.dead)|] == old(db.dead) && DeadLettered(db.dead[|old(db.dead)|], key, item, error)
          && registry.View() == Dedup.Settle(old(registry.View()), key, Dedup.Failed(error))
          && counters == n.(failedTerminal := n.failedTerminal + 1, dlqPushes := n.dlqPushes + 1)
    {
      var key := IdempotencyKey(c.digest, item.request);
      if retryable && Retry.ShouldRetry(policy, item.attempt) {
        counters := counters.(failedRetryable := counters.failedRetryable + 1,
                              retriesPerformed := counters.retriesPerformed + 1);
        var delay := Retry.BackoffSeconds(policy, item.attempt, draw.retryAfter, draw.uniform);
        var _ := db.IncrementRetry(key);
        return Some(Resched(QueueItem(item.request, item.attempt + 1), delay));
      }
      counters := counters.(failedTerminal := counters.failedTerminal + 1, dlqPushes := counters.dlqPushes + 1);
      var error := if retryable then Storage.DeadLetterError else Storage.NonRetryableError;
      var _ := db.PushDeadLetter(key, item.request, error, item.attempt);
      db.DeleteInflight(key);
      registry.Settle(key, Dedup.Failed(error));
      return None;
    }

    /** The row of the item is at its attempt number and its future is pending, as the lifecycle guarantees. */
    ghost predicate Carries(item: QueueItem)
      reads this, registry, db
    {
      var key := IdempotencyKey(c.digest, item.request);
      key in db.rows && db.rows[key].retryCount == item.attempt && Dedup.IsPending(registry.View(), key)
    }

    /** Only the row of the item and its future may have changed. */
    twostate predicate OthersKept(item: QueueItem)
      reads this, registry, db
    {
      var key := IdempotencyKey(c.digest, item.request);
      && db.rows - {key} == old(db.rows) - {key} && registry.inflight - {key} == old(registry.inflight) - {key}
      && forall f ::
           f in old(registry.futures) && (key in old(registry.inflight) ==> f != old(registry.inflight)[key]) ==>
             f in registry.futures && registry.futures[f] == old(registry.futures)[f]
    }

    /**
      The item is rescheduled, with its row at the new attempt number and its future still pending, or its
      row is gone and its future settled, and the DLQ has gained a row exactly when it failed.
    */
    twostate predicate Concluded(item: QueueItem, admitted: bool, outcome: Outcome, next: Option<Resched>)
      reads this, registry, db
    {
      var key := IdempotencyKey(c.digest, item.request);
      var served := admitted && outcome.Success?;
      && key in old(registry.inflight)
      && var f := old(registry.inflight)[key];
      if next.Some? then
        && next.value.item == QueueItem(item.request, item.attempt + 1)
        && key in db.rows && db.rows[key].retryCount == next.value.item.attempt
        && registry.View() == old(registry.View()) && db.dead == old(db.dead)
      else
        && key !in db.rows && key !in registry.inflight && f in registry.futures
        && (served ==> registry.futures[f] == Dedup.Resolved(outcome.response) && db.dead == old(db.dead))
        && (!served ==>
              var refused := admitted && outcome.Permanent?;
              var error := if refused then Storage.NonRetryableError else Storage.DeadLetterError;
              && registry.futures[f] == Dedup.Failed(error)
              && |db.dead| == |old(db.dead)| + 1 && db.dead[..|old(db.dead)|] == old(db.dead)
              && DeadLettered(db.dead[|old(db.dead)|], key, item, error))
    }

    /** `_handle` from the point where verdict and outcome are known and reported. */
    method Conclude(item: QueueItem, admitted: bool, outcome: Outcome, draw: Retry.Draw) returns (next: Option<Resched>)
      requires Valid()
      modifies this`counters, registry, db
      ensures Valid()
      ensures next.Some? <==> item.attempt < c.maxRetries && !(admitted && (outcome.Success? || outcome.Permanent?))
      ensures counters.succeeded == old(counters).succeeded + if admitted && outcome.Success? then 1 else 0
      ensures next.Some? ==> next.value.item == QueueItem(item.request, item.attempt + 1)
      ensures next.Some? ==>
        next.value.delay == Retry.BackoffSeconds(policy, item.attempt, draw.retryAfter, draw.uniform)
      ensures old(Carries(item)) ==> Concluded(item, admitted, outcome, next)
      ensures OthersKept(item)
    {
      if !admitted {
        next := HandleRetryOrDlq(item, true, draw);
        return;
      }
      if !outcome.Success? {
        next := HandleRetryOrDlq(item, !outcome.Permanent?, draw);
        return;
      }
      var key := IdempotencyKey(c.digest, item.request);
      counters := counters.(succeeded := counters.succeeded + 1);
      db.DeleteInflight(key);
      registry.Settle(key, Dedup.Resolved(outcome.response));
      return None;
    }

    /**
      `_handle` on an item at `now`, with the breaker of its host and an answer that comes at `later`.  The
      breaker is asked once and told the outcome of an admitted call, unless that is a 429; a rejected
      item waits as long as the breaker asks for.  No other key is touched.
    */
    method Handle(item: QueueItem, breaker: Breaker.CircuitBreaker, now: real, later: real, outcome: Outcome,
                  draw: Retry.Draw)
      returns (next: Option<Resched>)
      requires Valid()
      modifies this`counters, registry, db, breaker
      ensures
        var b := old(breaker.View());
        var admitted := Admits(b, breaker.cfg, now);
        && Valid()
        && (next.Some? <==> item.attempt < c.maxRetries && !(admitted && (outcome.Success? || outcome.Permanent?)))
        && breaker.View() == Told(breaker.cfg, b, now, later, outcome)
        && counters.succeeded == old(counters).succeeded + (if admitted && outcome.Success? then 1 else 0)
        && (next.Some? ==> next.value.item == QueueItem(item.request, item.attempt + 1))
        && (next.Some? ==>
              next.value.delay == Retry.BackoffSeconds(
                policy, item.attempt, Hint(breaker.cfg, b, now, draw.retryAfter), draw.uniform))
        && (old(Carries(item)) ==> Concluded(item, admitted, outcome, next))
      ensures Hears(breaker.cfg, old(breaker.View()), breaker.View(), now, later, outcome)
      ensures next.Some? ==>
        Waits(breaker.cfg, old(breaker.View()), policy, now, draw.retryAfter, next.value.delay)
      ensures OthersKept(item)
    {
      HearsTold(breaker.cfg, breaker.View(), now, later, outcome);
      WaitsAsTold(breaker.cfg, breaker.View(), policy, item.attempt, now, draw);
      var verdict := breaker.Enter(now);
      if verdict.Rejected? {
        next := Conclude(item, false, outcome, Retry.Draw(Some(verdict.retryAfter), draw.uniform));
        return;
      }
      if outcome.Success? {
        breaker.Success();
      } else if !outcome.Throttled? {
        breaker.Failure(later);
      }
      next := Conclude(item, true, outcome, draw);
    }

    /**
      What the workers and the reschedules make of an item whose host has a breaker that is full and hears
      nothing more: it is never sent, and is dead-lettered after as many runs of `_handle` as it has
      attempts left.  `times` and `draws` are those of the runs.
    */
    method HandleWhileFull(
      item: QueueItem, breaker: Breaker.CircuitBreaker, times: nat -> real, outcomes: nat -> Outcome,
      draws: nat -> Retry.Draw)
      returns (runs: nat)
      requires Valid() && IsFull(breaker.cfg, breaker.View())
      modifies this`counters, registry, db, breaker
      ensures Valid() && breaker.View() == old(breaker.View())
      ensures runs == (if item.attempt < c.maxRetries then c.maxRetries - item.attempt else 0) + 1
      ensures counters.succeeded == old(counters).succeeded
      ensures old(Carries(item)) ==>
        var key := IdempotencyKey(c.digest, item.request);
        var f := old(registry.inflight)[key];
        && key !in db.rows && key !in registry.inflight && f in registry.futures && registry.futures[f].Failed?
        && |db.dead| == |old(db.dead)| + 1 && db.dead[..|old(db.dead)|] == old(db.dead)
        && db.dead[|old(db.dead)|].key == key
    {
      var current := item;
      runs := 0;
      while true
        invariant Valid() && breaker.View() == old(breaker.View()) && counters.succeeded == old(counters).succeeded
        invariant current.request == item.request && current.attempt == item.attempt + runs
        invariant runs > 0 ==> current.attempt <= c.maxRetries
        invariant old(Carries(item)) ==>
          Carries(current) && registry.View() == old(registry.View()) && db.dead == old(db.dead)
        decreases c.maxRetries - current.attempt
      {
        FullStaysFull(breaker.cfg, breaker.View(), times(runs), times(runs), outcomes(runs), draws(runs).retryAfter);
        var next := Handle(current, breaker, times(runs), times(runs), outcomes(runs), draws(runs));
        runs := runs + 1;
        if next == None {
          return;
        }
        current := next.value.item;
      }
    }

    /** `_reschedule`, once its sleep is over: after stop it leaves everything, the row included, as it is. */
    method Reschedule(item: QueueItem, stopping: bool) returns (enqueued: bool)
      requires Valid()
      modifies queue
      ensures Valid() && (enqueued <==> !stopping && |old(queue.items)| < c.maxSize)
      ensures queue.items == old(queue.items) + if enqueued then [item] else []
      ensures queue.unfinished == old(queue.unfinished) + if enqueued then 1 else 0
    {
      if stopping {
        return false;
      }
      enqueued := queue.Enqueue(item);
    }
  }
}
