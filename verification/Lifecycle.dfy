/**
  The request lifecycle of async_hardened_client/client.py as a step system.

  One step is the code between two suspending awaits; every storage commit is a step of its own.  A
  unit of work is what an owner starts when `get_or_create` makes it the owner of a fresh future: it
  moves from the submitting caller (or the recovery loop) to the queue, to a worker and to a sleeping
  reschedule and back.  Unit `t` is numbered like the future its owner created, but every operation
  on the registry and on storage goes through the key recomputed from the unit's request.
*/
module Lifecycle {
  import opened Models
  import opened Storage
  import opened Dedup

  datatype Config = Config(digest: Digest, maxRetries: nat, maxSize: nat, workers: nat)

  /** Where a unit is: the place in the code at which whoever carries it is suspended. */
  datatype Loc =
    | Registered                     // owner: future created, upsert not committed
    | Committed                      // owner: upsert committed, not yet resumed
    | SubmitBlocked                  // owner: waiting for a queue slot
    | RecoverBlocked                 // recovery loop: waiting for a queue slot
    | Queued
    | Handling                       // worker: dequeued, not yet past breaker and rate limiter
    | Executing                      // worker: HTTP request sent
    | SuccessNoted(response: int)    // worker: success received, row not yet deleted
    | SuccessErased(response: int)   // worker: row deleted, future not yet resolved
    | RetryNoted                     // worker: retry decided, increment not committed
    | RetryWritten                   // worker: increment committed, reschedule not created
    | DeadNoted(error: ErrorKind)    // worker: terminal, DLQ push not committed
    | DeadPushed(error: ErrorKind)   // worker: DLQ row pushed, inflight row not yet deleted
    | DeadErased(error: ErrorKind)   // worker: both committed, future not yet failed
    | Sleeping                       // reschedule: backing off
    | RescheduleBlocked              // reschedule: waiting for a queue slot

  /** `live` turns false when stop abandons the unit: nobody carries it any more. */
  datatype Unit = Unit(req: Request, attempt: nat, loc: Loc, live: bool)

  /** The task that `_reschedule` runs in: a unit has one per attempt number. */
  datatype Task = Task(t: nat, attempt: nat)

  datatype Mode =
    | Down
    | Opening                        // session open, snapshot of the rows not yet read
    | Starting(remaining: seq<InflightRow>, blocked: Option<nat>)
    | Running
    | Draining(joined: bool, gathered: set<Task>)  // waiting for the tasks and `join`, or past both
    | Halted

  datatype Counters = Counters(
    started: nat,
    succeeded: nat,
    failedRetryable: nat,
    failedTerminal: nat,
    retriesPerformed: nat,
    dlqPushes: nat)

  datatype State = State(
    mode: Mode,
    db: Tables,
    reg: Registry,
    queue: seq<nat>,
    unfinished: int,
    busy: set<nat>,
    units: map<nat, Unit>,
    counters: Counters,
    nextId: nat)

  /** What `_execute` may answer: a 2xx/3xx, a 429, another retryable failure, or a permanent one. */
  datatype Outcome = Success(response: int) | Throttled | Transient | Permanent

  datatype Step =
    | Start
    | List(listing: seq<InflightRow>)
    | RecoverNext
    | RecoverPut
    | RecoverDone
    | Submit(req: Request)
    | Upsert(t: nat, now: real)
    | SubmitResume(t: nat)
    | Put(t: nat)
    | Dequeue
    | Reject(t: nat)
    | Execute(t: nat)
    | Reply(t: nat, outcome: Outcome)
    | EraseRow(t: nat)
    | Resolve(t: nat)
    | BumpRetry(t: nat)
    | Reschedule(t: nat)
    | Wake(t: nat)
    | PushDead(t: nat)
    | Fail(t: nat)
    | BeginStop
    | JoinReturns
    | DrainCheck
    | Close
    | Crash
    | RemoveDead(id: nat)

  const ZERO_COUNTERS := Counters(0, 0, 0, 0, 0, 0)

  function KeyOf(c: Config, u: Unit): Key { IdempotencyKey(c.digest, u.req) }

  predicate Full(c: Config, s: State) { |s.queue| >= c.maxSize }

  predicate Stopping(s: State) { s.mode.Draining? || s.mode.Halted? }

  predicate LiveAt(s: State, t: nat) { s.mode != Down && t in s.units && s.units[t].live }

  predicate IsReschedule(u: Unit) { u.live && (u.loc == Sleeping || u.loc == RescheduleBlocked) }

  predicate IsPendingTask(s: State, task: Task) {
    task.t in s.units && IsReschedule(s.units[task.t]) && s.units[task.t].attempt == task.attempt
  }

  predicate AllDone(s: State, tasks: set<Task>) { forall task :: task in tasks ==> !IsPendingTask(s, task) }

  function PendingTasks(s: State): set<Task> {
    set t | t in s.units && IsReschedule(s.units[t]) :: Task(t, s.units[t].attempt)
  }

  ghost predicate Enabled(c: Config, s: State, step: Step) {
    match step
    case Start => s.mode == Down
    case List(listing) => s.mode == Opening && ListsInflight(s.db, listing)
    case RecoverNext => s.mode.Starting? && s.mode.blocked == None && s.mode.remaining != []
    case RecoverPut =>
      && s.mode.Starting? && s.mode.blocked.Some? && LiveAt(s, s.mode.blocked.value)
      && s.units[s.mode.blocked.value].loc == RecoverBlocked && !Full(c, s)
    case RecoverDone => s.mode.Starting? && s.mode.blocked == None && s.mode.remaining == []
    case Submit(req) => s.mode != Down
    case Upsert(t, now) => LiveAt(s, t) && s.units[t].loc == Registered
    case SubmitResume(t) => LiveAt(s, t) && s.units[t].loc == Committed
    case Put(t) =>
      LiveAt(s, t) && (s.units[t].loc == SubmitBlocked || s.units[t].loc == RescheduleBlocked) && !Full(c, s)
    case Dequeue =>
      && (s.mode.Running? || s.mode.Draining?) && s.queue != [] && |s.busy| < c.workers
      && LiveAt(s, s.queue[0])
    case Reject(t) => LiveAt(s, t) && s.units[t].loc == Handling
    case Execute(t) => LiveAt(s, t) && s.units[t].loc == Handling
    case Reply(t, outcome) => LiveAt(s, t) && s.units[t].loc == Executing
    case EraseRow(t) => LiveAt(s, t) && (s.units[t].loc.SuccessNoted? || s.units[t].loc.DeadPushed?)
    case Resolve(t) => LiveAt(s, t) && s.units[t].loc.SuccessErased?
    case BumpRetry(t) => LiveAt(s, t) && s.units[t].loc == RetryNoted
    case Reschedule(t) => LiveAt(s, t) && s.units[t].loc == RetryWritten
    case Wake(t) => LiveAt(s, t) && s.units[t].loc == Sleeping
    case PushDead(t) => LiveAt(s, t) && s.units[t].loc.DeadNoted?
    case Fail(t) => LiveAt(s, t) && s.units[t].loc.DeadErased?
    case BeginStop => s.mode == Running
    case JoinReturns =>
      s.mode.Draining? && !s.mode.joined && s.unfinished == 0 && AllDone(s, s.mode.gathered)
    case DrainCheck => s.mode.Draining? && s.mode.joined
    case Close => s.mode == Halted
    case Crash => s.mode != Down
    case RemoveDead(id) => true
  }

  /** Everything a process holds in memory is gone; the tables stay. */
  function Wiped(s: State): State {
    State(Down, s.db, EMPTY_REGISTRY, [], 0, {}, map[], ZERO_COUNTERS, s.nextId)
  }

  function MoveTo(s: State, t: nat, loc: Loc): State
    requires t in s.units
  {
    s.(units := s.units[t := s.units[t].(loc := loc)])
  }

  /** `asyncio.Queue.put` with a slot free. */
  function Enqueued(s: State, t: nat): State
    requires t in s.units
  {
    MoveTo(s, t, Queued).(queue := s.queue + [t], unfinished := s.unfinished + 1)
  }

  /** The worker's `finally: task_done()`. */
  function TaskDone(s: State, t: nat): State {
    s.(busy := s.busy - {t}, unfinished := s.unfinished - 1)
  }

  function CountStarted(s: State): State {
    s.(counters := s.counters.(started := s.counters.started + 1))
  }

  /** The owner path of a `get_or_create` call: a fresh future and the unit that will settle it. */
  function Owned(s: State, key: Key, u: Unit): State {
    s.(reg := GetOrCreate(s.reg, key, s.nextId), units := s.units[s.nextId := u], nextId := s.nextId + 1)
  }

  function Attached(s: State, key: Key): State {
    s.(reg := GetOrCreate(s.reg, key, s.nextId))
  }

  function ApplySubmit(c: Config, s: State, req: Request): State {
    var key := IdempotencyKey(c.digest, req);
    if IsPending(s.reg, key) then Attached(s, key)
    else Owned(s, key, Unit(req, 0, Registered, true))
  }

  /** One iteration of the recovery loop, up to the point where it may block on a full queue. */
  function ApplyRecoverNext(c: Config, s: State): State
    requires s.mode.Starting? && s.mode.remaining != []
  {
    var row := s.mode.remaining[0];
    var rest := s.mode.remaining[1..];
    if IsPending(s.reg, row.key) then Attached(s, row.key).(mode := Starting(rest, None))
    else
      var s' := CountStarted(Owned(s, row.key, Unit(row.request, row.retryCount, RecoverBlocked, true)));
      if Full(c, s) then s'.(mode := Starting(rest, Some(s.nextId)))
      else Enqueued(s', s.nextId).(mode := Starting(rest, None))
  }

  /** `_handle_retry_or_dlq` up to its first commit. */
  function RetryOrDead(c: Config, s: State, t: nat, retryable: bool): State
    requires t in s.units
  {
    var n := s.counters;
    if retryable && s.units[t].attempt < c.maxRetries then
      MoveTo(s, t, RetryNoted).(counters :=
        n.(failedRetryable := n.failedRetryable + 1, retriesPerformed := n.retriesPerformed + 1))
    else
      MoveTo(s, t, DeadNoted(if retryable then DeadLetterError else NonRetryableError)).(counters :=
        n.(failedTerminal := n.failedTerminal + 1, dlqPushes := n.dlqPushes + 1))
  }

  function ApplyReply(c: Config, s: State, t: nat, outcome: Outcome): State
    requires t in s.units
  {
    match outcome
    case Success(response) =>
      MoveTo(s, t, SuccessNoted(response)).(counters := s.counters.(succeeded := s.counters.succeeded + 1))
    case Throttled => RetryOrDead(c, s, t, true)
    case Transient => RetryOrDead(c, s, t, true)
    case Permanent => RetryOrDead(c, s, t, false)
  }

  function ApplyErase(c: Config, s: State, t: nat): State
    requires t in s.units && (s.units[t].loc.SuccessNoted? || s.units[t].loc.DeadPushed?)
  {
    var u := s.units[t];
    var loc := if u.loc.SuccessNoted? then SuccessErased(u.loc.response) else DeadErased(u.loc.error);
    MoveTo(s, t, loc).(db := DeleteInflight(s.db, KeyOf(c, u)))
  }

  /** Settling a future ends its unit; the worker then reports `task_done`. */
  function ApplySettle(c: Config, s: State, t: nat, outcome: Future): State
    requires t in s.units
  {
    TaskDone(s, t).(reg := Settle(s.reg, KeyOf(c, s.units[t]), outcome), units := s.units - {t})
  }

  /** A reschedule whose sleep is over gives up when stop has been called. */
  function ApplyWake(c: Config, s: State, t: nat): State
    requires t in s.units
  {
    if Stopping(s) then s.(units := s.units[t := s.units[t].(live := false)])
    else if Full(c, s) then MoveTo(s, t, RescheduleBlocked)
    else Enqueued(s, t)
  }

  /**
    `drain` returns unless reschedules are pending, which it then gathers before it joins again; when it
    returns, `stop` cancels the workers, busy or not.
  */
  function ApplyDrainCheck(s: State): State {
    if PendingTasks(s) != {} then s.(mode := Draining(false, PendingTasks(s)))
    else s.(mode := Halted,
            units := map t | t in s.units :: if t in s.busy then s.units[t].(live := false) else s.units[t],
            unfinished := s.unfinished - |s.busy|,
            busy := {})
  }

  function Apply(c: Config, s: State, step: Step): State
    requires Enabled(c, s, step)
  {
    match step
    case Start => s.(mode := Opening)
    case List(listing) => s.(mode := Starting(listing, None))
    case RecoverNext => ApplyRecoverNext(c, s)
    case RecoverPut => Enqueued(s, s.mode.blocked.value).(mode := Starting(s.mode.remaining, None))
    case RecoverDone => s.(mode := Running)
    case Submit(req) => ApplySubmit(c, s, req)
    case Upsert(t, now) =>
      MoveTo(s, t, Committed).(db := UpsertInflight(s.db, KeyOf(c, s.units[t]), s.units[t].req, now))
    case SubmitResume(t) =>
      var s' := CountStarted(s);
      if Full(c, s) then MoveTo(s', t, SubmitBlocked) else Enqueued(s', t)
    case Put(t) => Enqueued(s, t)
    case Dequeue => MoveTo(s, s.queue[0], Handling).(queue := s.queue[1..], busy := s.busy + {s.queue[0]})
    case Reject(t) => RetryOrDead(c, s, t, true)
    case Execute(t) => MoveTo(s, t, Executing)
    case Reply(t, outcome) => ApplyReply(c, s, t, outcome)
    case EraseRow(t) => ApplyErase(c, s, t)
    case Resolve(t) => ApplySettle(c, s, t, Resolved(s.units[t].loc.response))
    case BumpRetry(t) => MoveTo(s, t, RetryWritten).(db := IncrementRetry(s.db, KeyOf(c, s.units[t])))
    case Reschedule(t) =>
      TaskDone(s, t).(units := s.units[t := s.units[t].(attempt := s.units[t].attempt + 1, loc := Sleeping)])
    case Wake(t) => ApplyWake(c, s, t)
    case PushDead(t) =>
      MoveTo(s, t, DeadPushed(s.units[t].loc.error)).(
        db := PushDeadLetter(s.db, KeyOf(c, s.units[t]), s.units[t].req, s.units[t].loc.error, s.units[t].attempt))
    case Fail(t) => ApplySettle(c, s, t, Failed(s.units[t].loc.error))
    case BeginStop => s.(mode := Draining(false, {}))
    case JoinReturns => s.(mode := Draining(true, {}))
    case DrainCheck => ApplyDrainCheck(s)
    case Close => Wiped(s)
    case Crash => Wiped(s)
    case RemoveDead(id) => s.(db := RemoveDeadLetter(s.db, id))
  }
}
