/** What every step of the lifecycle keeps, in every interleaving and across crashes. */
module Invariant {
  import opened Models
  import opened Storage
  import opened Dedup
  import opened Lifecycle

  type Units = map<nat, Unit>

  predicate AtWorker(loc: Loc) {
    || loc == Handling || loc == Executing || loc.SuccessNoted? || loc.SuccessErased?
    || loc == RetryNoted || loc == RetryWritten || loc.DeadNoted? || loc.DeadPushed? || loc.DeadErased?
  }

  predicate Erased(loc: Loc) { loc.SuccessErased? || loc.DeadErased? }

  /** Past its upsert and not yet past the delete. */
  predicate HoldsRow(loc: Loc) { loc != Registered && !Erased(loc) }

  predicate BeforeWorkers(loc: Loc) {
    loc == Registered || loc == Committed || loc == SubmitBlocked || loc == RecoverBlocked || loc == Queued
  }

  predicate Busy(u: Unit) { u.live && AtWorker(u.loc) }

  /**
    The pending keys of the registry are exactly the keys of the units, one unit per key: the pending
    future of a key is the one its unit was started with.
  */
  ghost predicate Naming(c: Config, reg: Registry, units: Units, nextId: nat) {
    && (forall t :: t in units ==>
          && t < nextId
          && KeyOf(c, units[t]) in reg.inflight && reg.inflight[KeyOf(c, units[t])] == t
          && t in reg.futures && reg.futures[t] == Pending)
    && (forall key :: key in reg.inflight ==>
          reg.inflight[key] in units && KeyOf(c, units[reg.inflight[key]]) == key)
    && (forall f :: f in reg.futures ==> f < nextId)
  }

  /** The queue holds the queued units once each, and `unfinished` is exact. */
  ghost predicate QueueExact(c: Config, queue: seq<nat>, unfinished: int, busy: set<nat>, units: Units) {
    && |queue| <= c.maxSize
    && (forall i, j :: 0 <= i < j < |queue| ==> queue[i] != queue[j])
    && (forall t :: t in queue <==> t in units && units[t].loc == Queued)
    && (forall t :: t in busy <==> t in units && Busy(units[t]))
    && |busy| <= c.workers
    && unfinished == |queue| + |busy|
  }

  function SavedCount(u: Unit): nat { if u.loc == RetryWritten then u.attempt + 1 else u.attempt }

  /** What a unit says about its row and its attempt number. */
  ghost predicate UnitAgrees(c: Config, db: Tables, u: Unit) {
    && (HoldsRow(u.loc) ==> KeyOf(c, u) in db.rows && db.rows[KeyOf(c, u)].retryCount == SavedCount(u))
    && (Erased(u.loc) ==> KeyOf(c, u) !in db.rows)
    && (u.loc == Registered ==> u.attempt == 0)
    && SavedCount(u) <= c.maxRetries
    && (u.loc == RetryNoted ==> u.attempt < c.maxRetries)
    && (u.loc == DeadNoted(DeadLetterError) ==> u.attempt == c.maxRetries)
  }

  ghost predicate RowGood(c: Config, key: Key, row: Row) {
    && row.retryCount <= c.maxRetries
    && forall req :: Restores(row.payload, req) ==> IdempotencyKey(c.digest, req) == key
  }

  ghost predicate Agreement(c: Config, db: Tables, units: Units) {
    && (forall key :: key in db.rows ==> RowGood(c, key, db.rows[key]))
    && (forall t :: t in units ==> UnitAgrees(c, db, units[t]))
  }

  /** Which units a mode allows: no worker before recovery is over, nothing abandoned before stop. */
  predicate FitsMode(mode: Mode, t: nat, u: Unit) {
    match mode
    case Down => false
    case Opening => u.live && BeforeWorkers(u.loc) && u.loc != RecoverBlocked
    case Starting(_, blocked) => u.live && BeforeWorkers(u.loc) && (u.loc == RecoverBlocked <==> blocked == Some(t))
    case Running => u.live && u.loc != RecoverBlocked
    case Draining(_, _) => u.loc != RecoverBlocked && (u.live || u.loc == Sleeping)
    case Halted => u.loc != RecoverBlocked && !Busy(u) && (u.live || u.loc == Sleeping || AtWorker(u.loc))
  }

  ghost predicate ModeGood(mode: Mode, units: Units) {
    && (forall t :: t in units ==> FitsMode(mode, t, units[t]))
    && (mode.Starting? && mode.blocked.Some? ==> mode.blocked.value in units)
  }

  function Remaining(mode: Mode): seq<InflightRow> { if mode.Starting? then mode.remaining else [] }

  ghost predicate Listed(rows: seq<InflightRow>, key: Key) {
    exists i :: 0 <= i < |rows| && rows[i].key == key
  }

  /** A row the recovery loop has not reached is untouched, unless a caller registered its key first. */
  ghost predicate SnapshotGood(c: Config, db: Tables, reg: Registry, rows: seq<InflightRow>) {
    && (forall i :: 0 <= i < |rows| ==>
          && rows[i].key in db.rows
          && IdempotencyKey(c.digest, rows[i].request) == rows[i].key
          && (rows[i].key !in reg.inflight ==> rows[i].retryCount == db.rows[rows[i].key].retryCount))
    && (forall i, j :: 0 <= i < j < |rows| ==> rows[i].key != rows[j].key)
  }

  /** Every row belongs to a unit or to a part of the snapshot that recovery has yet to reach. */
  ghost predicate Covered(c: Config, mode: Mode, db: Tables, reg: Registry) {
    && SnapshotGood(c, db, reg, Remaining(mode))
    && (mode != Down && mode != Opening ==>
          forall key :: key in db.rows ==> key in reg.inflight || Listed(Remaining(mode), key))
  }

  ghost predicate Inv(c: Config, s: State) {
    && Naming(c, s.reg, s.units, s.nextId)
    && QueueExact(c, s.queue, s.unfinished, s.busy, s.units)
    && Agreement(c, s.db, s.units)
    && ModeGood(s.mode, s.units)
    && Covered(c, s.mode, s.db, s.reg)
    && (s.mode == Down ==> s == Wiped(s))
  }

  // ----- a unit changes, alone or with its own row

  /** Only the row of `key` may differ. */
  ghost predicate OnlyRow(db: Tables, db': Tables, key: Key) {
    forall k :: k != key ==> (k in db'.rows <==> k in db.rows) && (k in db.rows ==> db'.rows[k] == db.rows[k])
  }

  lemma TouchNaming(c: Config, reg: Registry, units: Units, nextId: nat, t: nat, u: Unit)
    requires Naming(c, reg, units, nextId) && t in units && u.req == units[t].req
    ensures Naming(c, reg, units[t := u], nextId)
  {
  }

  lemma TouchQueue(c: Config, queue: seq<nat>, unfinished: int, busy: set<nat>, units: Units, t: nat, u: Unit)
    requires QueueExact(c, queue, unfinished, busy, units) && t in units
    requires units[t].loc != Queued && u.loc != Queued && Busy(u) == Busy(units[t])
    ensures QueueExact(c, queue, unfinished, busy, units[t := u])
  {
  }

  lemma TouchAgreement(c: Config, reg: Registry, db: Tables, units: Units, nextId: nat, t: nat, u: Unit, db': Tables)
    requires Naming(c, reg, units, nextId) && Agreement(c, db, units) && t in units && u.req == units[t].req
    requires OnlyRow(db, db', KeyOf(c, u)) && UnitAgrees(c, db', u)
    requires KeyOf(c, u) in db'.rows ==> RowGood(c, KeyOf(c, u), db'.rows[KeyOf(c, u)])
    ensures Agreement(c, db', units[t := u])
  {
    forall t' | t' in units && t' != t
      ensures UnitAgrees(c, db', units[t'])
    {
      assert KeyOf(c, units[t']) != KeyOf(c, units[t]);
    }
  }

  lemma TouchCovered(c: Config, mode: Mode, db: Tables, reg: Registry, key: Key, db': Tables)
    requires Covered(c, mode, db, reg) && key in reg.inflight && OnlyRow(db, db', key)
    requires mode.Starting? ==> (key in db.rows ==> key in db'.rows)
    ensures Covered(c, mode, db', reg)
  {
    var rows := Remaining(mode);
    forall i | 0 <= i < |rows|
      ensures rows[i].key in db'.rows
      ensures rows[i].key !in reg.inflight ==> rows[i].retryCount == db'.rows[rows[i].key].retryCount
    {
      assert rows[i].key in db.rows;
    }
  }

  lemma MoveAgreement(c: Config, db: Tables, units: Units, t: nat, u: Unit)
    requires Agreement(c, db, units) && UnitAgrees(c, db, u)
    ensures Agreement(c, db, units[t := u])
  {
  }

  lemma TouchMode(mode: Mode, units: Units, t: nat, u: Unit)
    requires ModeGood(mode, units) && FitsMode(mode, t, u)
    ensures ModeGood(mode, units[t := u])
  {
  }

  /** What a step has to show when it replaces unit `t` by `u` and the tables by `db`. */
  ghost predicate TouchOk(c: Config, s: State, t: nat, u: Unit, db: Tables) {
    && t in s.units && u.req == s.units[t].req
    && s.units[t].loc != Queued && u.loc != Queued && Busy(u) == Busy(s.units[t])
    && FitsMode(s.mode, t, u)
    && OnlyRow(s.db, db, KeyOf(c, u)) && UnitAgrees(c, db, u)
    && (KeyOf(c, u) in db.rows ==> RowGood(c, KeyOf(c, u), db.rows[KeyOf(c, u)]))
    && (s.mode.Starting? ==> (KeyOf(c, u) in s.db.rows ==> KeyOf(c, u) in db.rows))
  }

  function Touched(s: State, t: nat, u: Unit, db: Tables, counters: Counters): State {
    s.(units := s.units[t := u], db := db, counters := counters)
  }

  lemma KeepTouched(c: Config, s: State, t: nat, u: Unit, db: Tables, counters: Counters)
    requires Inv(c, s) && TouchOk(c, s, t, u, db)
    ensures Inv(c, Touched(s, t, u, db, counters))
  {
    TouchNaming(c, s.reg, s.units, s.nextId, t, u);
    TouchQueue(c, s.queue, s.unfinished, s.busy, s.units, t, u);
    TouchAgreement(c, s.reg, s.db, s.units, s.nextId, t, u, db);
    TouchCovered(c, s.mode, s.db, s.reg, KeyOf(c, u), db);
  }

  /** What the invariant says about one unit. */
  ghost predicate UnitGood(c: Config, s: State, t: nat) {
    && t in s.units && t < s.nextId && s.mode != Down
    && UnitAgrees(c, s.db, s.units[t]) && FitsMode(s.mode, t, s.units[t])
    && (KeyOf(c, s.units[t]) in s.db.rows ==> RowGood(c, KeyOf(c, s.units[t]), s.db.rows[KeyOf(c, s.units[t])]))
    && KeyOf(c, s.units[t]) in s.reg.inflight && s.reg.inflight[KeyOf(c, s.units[t])] == t
    && IsPending(s.reg, KeyOf(c, s.units[t]))
  }

  lemma UnitFacts(c: Config, s: State, t: nat)
    requires Inv(c, s) && t in s.units
    ensures UnitGood(c, s, t)
  {
  }

  lemma UpsertGood(c: Config, db: Tables, req: Request, now: real)
    requires IdempotencyKey(c.digest, req) in db.rows ==>
      RowGood(c, IdempotencyKey(c.digest, req), db.rows[IdempotencyKey(c.digest, req)])
    ensures
      var key := IdempotencyKey(c.digest, req);
      var db' := UpsertInflight(db, key, req, now);
      key in db'.rows && db'.rows[key].retryCount == 0 && RowGood(c, key, db'.rows[key])
  {
    var payload := ToStorage(req);
    forall other | Restores(payload, other)
      ensures IdempotencyKey(c.digest, other) == IdempotencyKey(c.digest, req)
    {
      var id, when :| FromStorage(payload, id, when) == Ok(other);
      StorageRoundTrip(req, id, when);
    }
  }

  /** The steps of whoever carries a unit. */
  predicate OnUnit(step: Step) {
    || step.Upsert? || step.SubmitResume? || step.Put? || step.Reject? || step.Execute? || step.Reply?
    || step.EraseRow? || step.Resolve? || step.BumpRetry? || step.Reschedule? || step.Wake? || step.PushDead?
    || step.Fail?
  }

  /** Those of them that leave queue, registry and workers alone. */
  predicate IsTouch(c: Config, s: State, step: Step) {
    || step.Upsert? || (step.SubmitResume? && Full(c, s)) || step.Reject? || step.Execute? || step.Reply?
    || step.EraseRow? || step.BumpRetry? || step.PushDead? || (step.Wake? && (Stopping(s) || Full(c, s)))
  }

  /** The commits of a worker, and the request it sends. */
  predicate IsWork(step: Step) { step.Execute? || step.EraseRow? || step.BumpRetry? || step.PushDead? }

  /** A worker decides between success, retry and dead letter. */
  predicate IsVerdict(step: Step) { step.Reject? || step.Reply? }

  /** A step that touches a unit changes that unit, its row and the counters, and nothing else. */
  ghost predicate Framed(c: Config, s: State, t: nat, s': State) {
    && t in s.units && t in s'.units && s'.units == s.units[t := s'.units[t]] && s'.units[t].req == s.units[t].req
    && s'.mode == s.mode && s'.reg == s.reg && s'.queue == s.queue && s'.nextId == s.nextId
    && OnlyRow(s.db, s'.db, KeyOf(c, s.units[t]))
  }

  lemma WorkFrame(c: Config, s: State, step: Step)
    requires IsWork(step) && Enabled(c, s, step)
    ensures Framed(c, s, step.t, Apply(c, s, step))
  {
  }

  lemma VerdictFrame(c: Config, s: State, step: Step)
    requires IsVerdict(step) && Enabled(c, s, step)
    ensures Framed(c, s, step.t, Apply(c, s, step))
  {
  }

  lemma OwnerFrame(c: Config, s: State, step: Step)
    requires IsTouch(c, s, step) && Enabled(c, s, step) && !IsWork(step) && !IsVerdict(step)
    ensures Framed(c, s, step.t, Apply(c, s, step))
  {
  }

  lemma TouchFrame(c: Config, s: State, step: Step)
    requires IsTouch(c, s, step) && Enabled(c, s, step)
    ensures Framed(c, s, step.t, Apply(c, s, step))
  {
    if IsWork(step) {
      WorkFrame(c, s, step);
    } else if IsVerdict(step) {
      VerdictFrame(c, s, step);
    } else {
      OwnerFrame(c, s, step);
    }
  }

  lemma TouchUpsert(c: Config, s: State, t: nat, now: real) returns (u: Unit)
    requires Enabled(c, s, Upsert(t, now)) && UnitGood(c, s, t)
    ensures
      var s' := Apply(c, s, Upsert(t, now));
      TouchOk(c, s, t, u, s'.db) && s' == Touched(s, t, u, s'.db, s'.counters)
  {
    UpsertGood(c, s.db, s.units[t].req, now);
    u := s.units[t].(loc := Committed);
    assert KeyOf(c, u) == KeyOf(c, s.units[t]) == IdempotencyKey(c.digest, s.units[t].req);
  }

  lemma TouchBlocked(c: Config, s: State, step: Step) returns (u: Unit)
    requires Enabled(c, s, step) && IsTouch(c, s, step)
    requires (step.SubmitResume? || step.Wake?) && UnitGood(c, s, step.t)
    ensures
      var s' := Apply(c, s, step);
      TouchOk(c, s, step.t, u, s'.db) && s' == Touched(s, step.t, u, s'.db, s'.counters)
  {
    u := Apply(c, s, step).units[step.t];
  }

  lemma TouchRetryOrDead(c: Config, s: State, t: nat, retryable: bool)
    requires UnitGood(c, s, t) && LiveAt(s, t) && (s.units[t].loc == Handling || s.units[t].loc == Executing)
    ensures
      var s' := RetryOrDead(c, s, t, retryable);
      TouchOk(c, s, t, s'.units[t], s'.db) && s' == Touched(s, t, s'.units[t], s'.db, s'.counters)
  {
  }

  lemma TouchSuccess(c: Config, s: State, t: nat, response: int)
    requires UnitGood(c, s, t) && LiveAt(s, t) && s.units[t].loc == Executing
    ensures
      var s' := ApplyReply(c, s, t, Success(response));
      TouchOk(c, s, t, s'.units[t], s'.db) && s' == Touched(s, t, s'.units[t], s'.db, s'.counters)
  {
  }

  lemma TouchVerdict(c: Config, s: State, step: Step) returns (u: Unit)
    requires IsVerdict(step) && Enabled(c, s, step) && UnitGood(c, s, step.t)
    ensures
      var s' := Apply(c, s, step);
      TouchOk(c, s, step.t, u, s'.db) && s' == Touched(s, step.t, u, s'.db, s'.counters)
  {
    u := Apply(c, s, step).units[step.t];
    if step.Reply? && step.outcome.Success? {
      TouchSuccess(c, s, step.t, step.outcome.response);
    } else {
      TouchRetryOrDead(c, s, step.t, step.Reject? || !step.outcome.Permanent?);
    }
  }

  lemma TouchAttempt(c: Config, s: State, step: Step)
    requires (step.Execute? || step.BumpRetry?) && Enabled(c, s, step) && UnitGood(c, s, step.t)
    ensures
      var s' := Apply(c, s, step);
      TouchOk(c, s, step.t, s'.units[step.t], s'.db)
      && s' == Touched(s, step.t, s'.units[step.t], s'.db, s'.counters)
  {
  }

  lemma TouchRecord(c: Config, s: State, step: Step)
    requires (step.EraseRow? || step.PushDead?) && Enabled(c, s, step) && UnitGood(c, s, step.t)
    ensures
      var s' := Apply(c, s, step);
      TouchOk(c, s, step.t, s'.units[step.t], s'.db)
      && s' == Touched(s, step.t, s'.units[step.t], s'.db, s'.counters)
  {
  }

  lemma TouchWorker(c: Config, s: State, step: Step) returns (u: Unit)
    requires IsWork(step) && Enabled(c, s, step) && UnitGood(c, s, step.t)
    ensures
      var s' := Apply(c, s, step);
      TouchOk(c, s, step.t, u, s'.db) && s' == Touched(s, step.t, u, s'.db, s'.counters)
  {
    if step.Execute? || step.BumpRetry? {
      TouchAttempt(c, s, step);
    } else {
      TouchRecord(c, s, step);
    }
    u := Apply(c, s, step).units[step.t];
  }

  lemma TouchStep(c: Config, s: State, step: Step) returns (u: Unit)
    requires Enabled(c, s, step) && IsTouch(c, s, step) && UnitGood(c, s, step.t)
    ensures
      var s' := Apply(c, s, step);
      TouchOk(c, s, step.t, u, s'.db) && s' == Touched(s, step.t, u, s'.db, s'.counters)
  {
    if step.Upsert? {
      u := TouchUpsert(c, s, step.t, step.now);
    } else if step.SubmitResume? || step.Wake? {
      u := TouchBlocked(c, s, step);
    } else if step.Reject? || step.Reply? {
      u := TouchVerdict(c, s, step);
    } else {
      u := TouchWorker(c, s, step);
    }
  }

  lemma KeepTouch(c: Config, s: State, step: Step)
    requires Inv(c, s) && Enabled(c, s, step) && IsTouch(c, s, step)
    ensures Inv(c, Apply(c, s, step))
  {
    UnitFacts(c, s, step.t);
    var u := TouchStep(c, s, step);
    var s' := Apply(c, s, step);
    KeepTouched(c, s, step.t, u, s'.db, s'.counters);
  }

  // ----- a unit enters the queue

  lemma EnqueueQueue(c: Config, queue: seq<nat>, unfinished: int, busy: set<nat>, units: Units, t: nat, u: Unit)
    requires QueueExact(c, queue, unfinished, busy, units) && t in units && |queue| < c.maxSize
    requires units[t].loc != Queued && !Busy(units[t]) && u.loc == Queued
    ensures QueueExact(c, queue + [t], unfinished + 1, busy, units[t := u])
  {
    assert t !in queue;
  }

  lemma EnqueueAgreement(c: Config, db: Tables, units: Units, t: nat, u: Unit)
    requires Agreement(c, db, units) && t in units && u == units[t].(loc := Queued)
    requires HoldsRow(units[t].loc) && !AtWorker(units[t].loc)
    ensures Agreement(c, db, units[t := u])
  {
  }

  predicate Unblocked(mode: Mode, mode': Mode, t: nat) {
    if mode.Starting? && mode.blocked == Some(t) then mode' == Starting(mode.remaining, None) else mode' == mode
  }

  lemma EnqueueMode(mode: Mode, units: Units, t: nat, u: Unit, mode': Mode)
    requires ModeGood(mode, units) && t in units && u == units[t].(loc := Queued) && units[t].live
    requires Unblocked(mode, mode', t)
    ensures ModeGood(mode', units[t := u])
  {
  }

  lemma KeepEnqueued(c: Config, s: State, t: nat, mode: Mode)
    requires Inv(c, s) && t in s.units && s.units[t].live && |s.queue| < c.maxSize
    requires s.units[t].loc != Queued && HoldsRow(s.units[t].loc) && !AtWorker(s.units[t].loc)
    requires Unblocked(s.mode, mode, t)
    ensures Inv(c, Enqueued(s, t).(mode := mode))
  {
    var u := s.units[t].(loc := Queued);
    UnitFacts(c, s, t);
    TouchNaming(c, s.reg, s.units, s.nextId, t, u);
    EnqueueQueue(c, s.queue, s.unfinished, s.busy, s.units, t, u);
    EnqueueAgreement(c, s.db, s.units, t, u);
    EnqueueMode(s.mode, s.units, t, u, mode);
  }

  // ----- a caller or the recovery loop becomes the owner of a key

  lemma OwnNaming(c: Config, reg: Registry, units: Units, nextId: nat, u: Unit)
    requires Naming(c, reg, units, nextId) && !IsPending(reg, KeyOf(c, u))
    ensures KeyOf(c, u) !in reg.inflight && nextId !in units
    ensures Naming(c, GetOrCreate(reg, KeyOf(c, u), nextId), units[nextId := u], nextId + 1)
  {
  }

  lemma OwnQueue(c: Config, queue: seq<nat>, unfinished: int, busy: set<nat>, units: Units, t: nat, u: Unit)
    requires QueueExact(c, queue, unfinished, busy, units) && t !in units
    requires u.loc != Queued && !Busy(u)
    ensures QueueExact(c, queue, unfinished, busy, units[t := u])
  {
  }

  lemma OwnCovered(c: Config, mode: Mode, db: Tables, reg: Registry, key: Key, id: nat)
    requires Covered(c, mode, db, reg)
    ensures Covered(c, mode, db, GetOrCreate(reg, key, id))
  {
  }

  /** The recovery loop advances, and waits for unit `t` at most. */
  predicate Advances(mode: Mode, mode': Mode, t: nat) {
    || mode' == mode
    || (mode.Starting? && mode.blocked == None && mode'.Starting?
        && (mode'.blocked == None || mode'.blocked == Some(t)))
  }

  lemma OwnMode(mode: Mode, units: Units, t: nat, u: Unit, mode': Mode)
    requires ModeGood(mode, units) && t !in units && FitsMode(mode', t, u) && Advances(mode, mode', t)
    ensures ModeGood(mode', units[t := u])
  {
  }

  lemma KeepOwned(c: Config, s: State, u: Unit, mode: Mode)
    requires Inv(c, s) && s.mode != Down && !IsPending(s.reg, KeyOf(c, u)) && UnitAgrees(c, s.db, u)
    requires u.loc != Queued && !Busy(u) && FitsMode(mode, s.nextId, u) && Advances(s.mode, mode, s.nextId)
    requires Covered(c, mode, s.db, GetOrCreate(s.reg, KeyOf(c, u), s.nextId))
    ensures Inv(c, Owned(s, KeyOf(c, u), u).(mode := mode))
  {
    OwnNaming(c, s.reg, s.units, s.nextId, u);
    OwnQueue(c, s.queue, s.unfinished, s.busy, s.units, s.nextId, u);
    OwnMode(s.mode, s.units, s.nextId, u, mode);
  }

  lemma KeepSubmit(c: Config, s: State, req: Request)
    requires Inv(c, s) && Enabled(c, s, Submit(req))
    ensures Inv(c, Apply(c, s, Submit(req)))
  {
    var key := IdempotencyKey(c.digest, req);
    OwnCovered(c, s.mode, s.db, s.reg, key, s.nextId);
    if !IsPending(s.reg, key) {
      var u := Unit(req, 0, Registered, true);
      KeepOwned(c, s, u, s.mode);
      assert Owned(s, key, u).(mode := s.mode) == Owned(s, key, u);
    }
  }

  /** Dropping the head of the snapshot is safe once its key is registered. */
  lemma NextCovered(c: Config, mode: Mode, db: Tables, reg: Registry, blocked: Option<nat>)
    requires mode.Starting? && mode.remaining != [] && Covered(c, mode, db, reg)
    requires mode.remaining[0].key in reg.inflight
    ensures Covered(c, Starting(mode.remaining[1..], blocked), db, reg)
  {
    var rows := mode.remaining;
    forall key | key in db.rows && key !in reg.inflight
      ensures Listed(rows[1..], key)
    {
      var i :| 0 <= i < |rows| && rows[i].key == key;
      assert rows[1..][i - 1].key == key;
    }
  }

  lemma RecoverOwned(c: Config, s: State)
    requires Inv(c, s) && Enabled(c, s, RecoverNext) && !IsPending(s.reg, s.mode.remaining[0].key)
    ensures
      var row, rest := s.mode.remaining[0], s.mode.remaining[1..];
      var u := Unit(row.request, row.retryCount, RecoverBlocked, true);
      Inv(c, Owned(s, row.key, u).(mode := Starting(rest, Some(s.nextId))))
  {
    var row, rest := s.mode.remaining[0], s.mode.remaining[1..];
    var u := Unit(row.request, row.retryCount, RecoverBlocked, true);
    OwnNaming(c, s.reg, s.units, s.nextId, u);
    OwnCovered(c, s.mode, s.db, s.reg, row.key, s.nextId);
    NextCovered(c, s.mode, s.db, GetOrCreate(s.reg, row.key, s.nextId), Some(s.nextId));
    KeepOwned(c, s, u, Starting(rest, Some(s.nextId)));
  }

  lemma RecoverOwns(c: Config, s: State)
    requires Inv(c, s) && Enabled(c, s, RecoverNext) && !IsPending(s.reg, s.mode.remaining[0].key)
    ensures
      var row, rest := s.mode.remaining[0], s.mode.remaining[1..];
      var u := Unit(row.request, row.retryCount, RecoverBlocked, true);
      Inv(c, CountStarted(Owned(s, row.key, u).(mode := Starting(rest, Some(s.nextId)))))
  {
    var row, rest := s.mode.remaining[0], s.mode.remaining[1..];
    var u := Unit(row.request, row.retryCount, RecoverBlocked, true);
    RecoverOwned(c, s);
    Recount(c, Owned(s, row.key, u).(mode := Starting(rest, Some(s.nextId))));
  }

  lemma RecoverSkips(c: Config, s: State)
    requires Inv(c, s) && Enabled(c, s, RecoverNext) && IsPending(s.reg, s.mode.remaining[0].key)
    ensures Inv(c, s.(reg := GetOrCreate(s.reg, s.mode.remaining[0].key, s.nextId),
                      mode := Starting(s.mode.remaining[1..], None)))
  {
    var row := s.mode.remaining[0];
    OwnCovered(c, s.mode, s.db, s.reg, row.key, s.nextId);
    NextCovered(c, s.mode, s.db, GetOrCreate(s.reg, row.key, s.nextId), None);
    AttachNaming(c, s.reg, s.units, s.nextId, row.key);
    SkipMode(s.mode, s.units);
  }

  lemma SkipMode(mode: Mode, units: Units)
    requires ModeGood(mode, units) && mode.Starting? && mode.blocked == None && mode.remaining != []
    ensures ModeGood(Starting(mode.remaining[1..], None), units)
  {
  }

  lemma AttachNaming(c: Config, reg: Registry, units: Units, nextId: nat, key: Key)
    requires Naming(c, reg, units, nextId) && IsPending(reg, key)
    ensures Naming(c, GetOrCreate(reg, key, nextId), units, nextId)
  {
  }

  lemma RecoverShape(c: Config, s: State)
    requires Enabled(c, s, RecoverNext)
    ensures
      var row, rest := s.mode.remaining[0], s.mode.remaining[1..];
      var u := Unit(row.request, row.retryCount, RecoverBlocked, true);
      var s1 := CountStarted(Owned(s, row.key, u).(mode := Starting(rest, Some(s.nextId))));
      Apply(c, s, RecoverNext) ==
        if IsPending(s.reg, row.key) then s.(reg := GetOrCreate(s.reg, row.key, s.nextId), mode := Starting(rest, None))
        else if Full(c, s) then s1
        else Enqueued(s1, s.nextId).(mode := Starting(rest, None))
  {
  }

  lemma BlockedUnit(c: Config, s: State, t: nat)
    requires Inv(c, s) && s.mode.Starting? && s.mode.blocked == Some(t)
    ensures t in s.units && s.units[t].loc == RecoverBlocked && s.units[t].live
  {
    UnitFacts(c, s, t);
  }

  lemma RecoverEnqueues(c: Config, s: State, t: nat)
    requires Inv(c, s) && s.mode.Starting? && s.mode.blocked == Some(t) && |s.queue| < c.maxSize
    ensures t in s.units && s.units[t].loc == RecoverBlocked && s.units[t].live
    ensures Inv(c, Enqueued(s, t).(mode := Starting(s.mode.remaining, None)))
  {
    BlockedUnit(c, s, t);
    KeepEnqueued(c, s, t, Starting(s.mode.remaining, None));
  }

  lemma KeepRecoverNext(c: Config, s: State)
    requires Inv(c, s) && Enabled(c, s, RecoverNext)
    ensures Inv(c, Apply(c, s, RecoverNext))
  {
    RecoverShape(c, s);
    var row, rest := s.mode.remaining[0], s.mode.remaining[1..];
    if IsPending(s.reg, row.key) {
      RecoverSkips(c, s);
    } else {
      RecoverOwns(c, s);
      if !Full(c, s) {
        var u := Unit(row.request, row.retryCount, RecoverBlocked, true);
        RecoverEnqueues(c, CountStarted(Owned(s, row.key, u).(mode := Starting(rest, Some(s.nextId)))), s.nextId);
      }
    }
  }

  lemma Recount(c: Config, s: State)
    requires Inv(c, s) && s.mode != Down
    ensures Inv(c, CountStarted(s))
  {
  }

  // ----- a worker takes a unit and lets go of it

  lemma DequeueQueue(c: Config, queue: seq<nat>, unfinished: int, busy: set<nat>, units: Units, u: Unit)
    requires QueueExact(c, queue, unfinished, busy, units) && queue != [] && queue[0] in units && |busy| < c.workers
    requires u.loc == Handling && u.live
    ensures QueueExact(c, queue[1..], unfinished, busy + {queue[0]}, units[queue[0] := u])
  {
    var t := queue[0];
    assert t !in busy;
    assert t !in queue[1..];
    assert forall t' :: t' in queue <==> t' == t || t' in queue[1..];
  }

  /** A unit changes hands between queue, worker and reschedule without changing what it promises. */
  lemma HandOver(c: Config, s: State, t: nat) returns (u: Unit)
    requires UnitGood(c, s, t) && s.units[t].live && !s.mode.Starting? && s.mode != Opening
    requires (s.units[t].loc == Queued && s.mode != Halted) || s.units[t].loc == RetryWritten
    ensures u == if s.units[t].loc == Queued then s.units[t].(loc := Handling)
                 else s.units[t].(attempt := s.units[t].attempt + 1, loc := Sleeping)
    ensures UnitAgrees(c, s.db, u) && FitsMode(s.mode, t, u)
  {
    u := if s.units[t].loc == Queued then s.units[t].(loc := Handling)
         else s.units[t].(attempt := s.units[t].attempt + 1, loc := Sleeping);
  }

  lemma KeepDequeue(c: Config, s: State)
    requires Inv(c, s) && Enabled(c, s, Dequeue)
    ensures Inv(c, Apply(c, s, Dequeue))
  {
    var t := s.queue[0];
    UnitFacts(c, s, t);
    DequeueLoc(c, s.queue, s.unfinished, s.busy, s.units);
    var u := HandOver(c, s, t);
    DequeueQueue(c, s.queue, s.unfinished, s.busy, s.units, u);
    TouchNaming(c, s.reg, s.units, s.nextId, t, u);
    MoveAgreement(c, s.db, s.units, t, u);
    TouchMode(s.mode, s.units, t, u);
  }

  lemma DequeueLoc(c: Config, queue: seq<nat>, unfinished: int, busy: set<nat>, units: Units)
    requires QueueExact(c, queue, unfinished, busy, units) && queue != []
    ensures queue[0] in units && units[queue[0]].loc == Queued
  {
    assert queue[0] in queue;
  }

  lemma FinishQueue(c: Config, queue: seq<nat>, unfinished: int, busy: set<nat>, units: Units, t: nat, u: Unit)
    requires QueueExact(c, queue, unfinished, busy, units) && t in units && Busy(units[t])
    requires u.loc != Queued && !Busy(u)
    ensures QueueExact(c, queue, unfinished - 1, busy - {t}, units[t := u])
  {
    assert t in busy && t !in queue;
  }

  lemma LeaveQueue(c: Config, queue: seq<nat>, unfinished: int, busy: set<nat>, units: Units, t: nat)
    requires QueueExact(c, queue, unfinished, busy, units) && t in units && Busy(units[t])
    ensures QueueExact(c, queue, unfinished - 1, busy - {t}, units - {t})
  {
    assert t in busy && t !in queue;
  }

  lemma KeepFinished(c: Config, s: State, t: nat, u: Unit)
    requires Inv(c, s) && t in s.units && s.mode != Down && u.req == s.units[t].req
    requires QueueExact(c, s.queue, s.unfinished - 1, s.busy - {t}, s.units[t := u])
    requires UnitAgrees(c, s.db, u) && FitsMode(s.mode, t, u)
    ensures Inv(c, s.(units := s.units[t := u], busy := s.busy - {t}, unfinished := s.unfinished - 1))
  {
    TouchNaming(c, s.reg, s.units, s.nextId, t, u);
    MoveAgreement(c, s.db, s.units, t, u);
    TouchMode(s.mode, s.units, t, u);
  }

  lemma RescheduleQueue(c: Config, s: State, t: nat, u: Unit)
    requires Inv(c, s) && t in s.units && Busy(s.units[t]) && u.loc == Sleeping
    ensures QueueExact(c, s.queue, s.unfinished - 1, s.busy - {t}, s.units[t := u])
  {
    FinishQueue(c, s.queue, s.unfinished, s.busy, s.units, t, u);
  }

  lemma RescheduleFacts(c: Config, s: State, t: nat) returns (u: Unit)
    requires UnitGood(c, s, t) && Enabled(c, s, Reschedule(t))
    ensures UnitAgrees(c, s.db, u) && FitsMode(s.mode, t, u) && Busy(s.units[t])
    ensures u == s.units[t].(attempt := s.units[t].attempt + 1, loc := Sleeping)
  {
    u := HandOver(c, s, t);
  }

  lemma RescheduleShape(c: Config, s: State, t: nat, u: Unit)
    requires Enabled(c, s, Reschedule(t)) && u == s.units[t].(attempt := s.units[t].attempt + 1, loc := Sleeping)
    ensures Apply(c, s, Reschedule(t))
         == s.(units := s.units[t := u], busy := s.busy - {t}, unfinished := s.unfinished - 1)
  {
  }

  lemma KeepReschedule(c: Config, s: State, t: nat)
    requires Inv(c, s) && Enabled(c, s, Reschedule(t))
    ensures Inv(c, Apply(c, s, Reschedule(t)))
  {
    UnitFacts(c, s, t);
    var u := RescheduleFacts(c, s, t);
    RescheduleShape(c, s, t, u);
    RescheduleQueue(c, s, t, u);
    KeepFinished(c, s, t, u);
  }

  lemma SettleNaming(c: Config, reg: Registry, units: Units, nextId: nat, t: nat, outcome: Future)
    requires Naming(c, reg, units, nextId) && t in units
    ensures Naming(c, Settle(reg, KeyOf(c, units[t]), outcome), units - {t}, nextId)
  {
  }

  lemma SettleCovered(c: Config, mode: Mode, db: Tables, reg: Registry, key: Key, outcome: Future)
    requires Covered(c, mode, db, reg) && key !in db.rows && !mode.Starting?
    ensures Covered(c, mode, db, Settle(reg, key, outcome))
  {
  }

  lemma KeepSettled(c: Config, s: State, t: nat, outcome: Future)
    requires Inv(c, s) && LiveAt(s, t) && Erased(s.units[t].loc)
    ensures Inv(c, ApplySettle(c, s, t, outcome))
  {
    UnitFacts(c, s, t);
    LeaveQueue(c, s.queue, s.unfinished, s.busy, s.units, t);
    SettleNaming(c, s.reg, s.units, s.nextId, t, outcome);
    SettleCovered(c, s.mode, s.db, s.reg, KeyOf(c, s.units[t]), outcome);
  }

  // ----- the client starts, stops and crashes

  lemma ListingCovered(c: Config, db: Tables, reg: Registry, units: Units, listing: seq<InflightRow>)
    requires ListsInflight(db, listing) && Agreement(c, db, units)
    ensures Covered(c, Starting(listing, None), db, reg)
  {
    forall i | 0 <= i < |listing|
      ensures IdempotencyKey(c.digest, listing[i].request) == listing[i].key
    {
      assert RowGood(c, listing[i].key, db.rows[listing[i].key]);
    }
  }

  function Abandon(units: Units, busy: set<nat>): Units {
    map t | t in units :: if t in busy then units[t].(live := false) else units[t]
  }

  lemma HaltQueue(c: Config, queue: seq<nat>, unfinished: int, busy: set<nat>, units: Units)
    requires QueueExact(c, queue, unfinished, busy, units)
    ensures QueueExact(c, queue, unfinished - |busy|, {}, Abandon(units, busy))
  {
  }

  lemma HaltMode(mode: Mode, units: Units, busy: set<nat>)
    requires ModeGood(mode, units) && mode.Draining?
    requires forall t :: t in busy <==> t in units && Busy(units[t])
    ensures ModeGood(Halted, Abandon(units, busy))
  {
  }

  lemma HaltAgreement(c: Config, db: Tables, units: Units, busy: set<nat>)
    requires Agreement(c, db, units)
    ensures Agreement(c, db, Abandon(units, busy))
  {
  }

  lemma HaltNaming(c: Config, reg: Registry, units: Units, nextId: nat, busy: set<nat>)
    requires Naming(c, reg, units, nextId)
    ensures Naming(c, reg, Abandon(units, busy), nextId)
  {
  }

  lemma HaltShape(s: State)
    requires s.mode.Draining? && PendingTasks(s) == {}
    ensures ApplyDrainCheck(s)
         == s.(mode := Halted, units := Abandon(s.units, s.busy), unfinished := s.unfinished - |s.busy|, busy := {})
  {
  }

  lemma KeepHalt(c: Config, s: State)
    requires Inv(c, s) && s.mode.Draining?
    ensures
      Inv(c, s.(mode := Halted, units := Abandon(s.units, s.busy), unfinished := s.unfinished - |s.busy|, busy := {}))
  {
    HaltNaming(c, s.reg, s.units, s.nextId, s.busy);
    HaltQueue(c, s.queue, s.unfinished, s.busy, s.units);
    HaltAgreement(c, s.db, s.units, s.busy);
    HaltMode(s.mode, s.units, s.busy);
  }

  lemma KeepDrainCheck(c: Config, s: State)
    requires Inv(c, s) && Enabled(c, s, DrainCheck)
    ensures Inv(c, Apply(c, s, DrainCheck))
  {
    if PendingTasks(s) != {} {
      KeepMode(c, s, Draining(false, PendingTasks(s)));
    } else {
      HaltShape(s);
      KeepHalt(c, s);
    }
  }

  lemma KeepMode(c: Config, s: State, mode: Mode)
    requires Inv(c, s)
    requires || (s.mode == Starting([], None) && mode == Running)
             || (s.mode == Running && mode.Draining?)
             || (s.mode.Draining? && mode.Draining?)
    ensures Inv(c, s.(mode := mode))
  {
  }

  lemma KeepStart(c: Config, s: State)
    requires Inv(c, s) && s.mode == Down
    ensures Inv(c, s.(mode := Opening))
  {
  }

  lemma KeepList(c: Config, s: State, listing: seq<InflightRow>)
    requires Inv(c, s) && s.mode == Opening && ListsInflight(s.db, listing)
    ensures Inv(c, s.(mode := Starting(listing, None)))
  {
    ListingCovered(c, s.db, s.reg, s.units, listing);
  }

  lemma KeepWiped(c: Config, s: State)
    requires Inv(c, s)
    ensures Inv(c, Wiped(s))
  {
  }

  lemma KeepRemoveDead(c: Config, s: State, id: nat)
    requires Inv(c, s)
    ensures Inv(c, s.(db := RemoveDeadLetter(s.db, id)))
  {
    SameRows(c, s.mode, s.db, RemoveDeadLetter(s.db, id), s.reg, s.units);
  }

  lemma SameRows(c: Config, mode: Mode, db: Tables, db': Tables, reg: Registry, units: Units)
    requires Agreement(c, db, units) && Covered(c, mode, db, reg) && db'.rows == db.rows
    ensures Agreement(c, db', units) && Covered(c, mode, db', reg)
  {
  }

  /** A free slot was found: `put` by the recovery loop, by a blocked caller or by a reschedule. */
  lemma KeepPutUnit(c: Config, s: State, t: nat)
    requires Inv(c, s) && LiveAt(s, t) && !Full(c, s)
    requires s.units[t].loc == SubmitBlocked || s.units[t].loc == RescheduleBlocked || s.units[t].loc == Sleeping
    ensures Inv(c, Enqueued(s, t))
  {
    KeepEnqueued(c, s, t, s.mode);
    assert Enqueued(s, t).(mode := s.mode) == Enqueued(s, t);
  }

  lemma KeepPut(c: Config, s: State, step: Step)
    requires Inv(c, s) && Enabled(c, s, step)
    requires step.Put? || step.RecoverPut? || (step.Wake? && !IsTouch(c, s, step))
    ensures Inv(c, Apply(c, s, step))
  {
    if step.RecoverPut? {
      RecoverEnqueues(c, s, s.mode.blocked.value);
    } else {
      KeepPutUnit(c, s, step.t);
    }
  }

  lemma KeepResume(c: Config, s: State, t: nat)
    requires Inv(c, s) && Enabled(c, s, SubmitResume(t)) && !Full(c, s)
    ensures Inv(c, Apply(c, s, SubmitResume(t)))
  {
    UnitFacts(c, s, t);
    Recount(c, s);
    KeepEnqueued(c, CountStarted(s), t, s.mode);
    assert Enqueued(CountStarted(s), t).(mode := s.mode) == Enqueued(CountStarted(s), t);
  }

  lemma KeepTurn(c: Config, s: State, step: Step)
    requires Inv(c, s) && Enabled(c, s, step)
    requires step.RecoverDone? || step.BeginStop? || step.JoinReturns? || step.DrainCheck?
    ensures Inv(c, Apply(c, s, step))
  {
    match step
    case RecoverDone => KeepMode(c, s, Running);
    case BeginStop => KeepMode(c, s, Draining(false, {}));
    case JoinReturns => KeepMode(c, s, Draining(true, {}));
    case DrainCheck => KeepDrainCheck(c, s);
  }

  lemma KeepBoundary(c: Config, s: State, step: Step)
    requires Inv(c, s) && Enabled(c, s, step)
    requires step.Start? || step.List? || step.Close? || step.Crash? || step.RemoveDead?
    ensures Inv(c, Apply(c, s, step))
  {
    if step.Start? {
      KeepStart(c, s);
    } else if step.List? {
      KeepList(c, s, step.listing);
    } else if step.RemoveDead? {
      KeepRemoveDead(c, s, step.id);
    } else {
      KeepWiped(c, s);
      assert Apply(c, s, step) == Wiped(s);
    }
  }

  lemma KeepFlow(c: Config, s: State, step: Step)
    requires Inv(c, s) && Enabled(c, s, step)
    requires step.RecoverNext? || step.Submit? || step.Dequeue? || step.Resolve? || step.Fail? || step.Reschedule?
    ensures Inv(c, Apply(c, s, step))
  {
    match step
    case RecoverNext => KeepRecoverNext(c, s);
    case Submit(req) => KeepSubmit(c, s, req);
    case Dequeue => KeepDequeue(c, s);
    case Resolve(t) => KeepSettled(c, s, t, Resolved(s.units[t].loc.response));
    case Fail(t) => KeepSettled(c, s, t, Failed(s.units[t].loc.error));
    case Reschedule(t) => KeepReschedule(c, s, t);
  }

  /** Every step keeps the invariant. */
  lemma Preserved(c: Config, s: State, step: Step)
    requires Inv(c, s) && Enabled(c, s, step)
    ensures Inv(c, Apply(c, s, step))
  {
    if IsTouch(c, s, step) {
      KeepTouch(c, s, step);
    } else if step.Put? || step.RecoverPut? || step.Wake? {
      KeepPut(c, s, step);
    } else if step.SubmitResume? {
      KeepResume(c, s, step.t);
    } else if step.RecoverDone? || step.BeginStop? || step.JoinReturns? || step.DrainCheck? {
      KeepTurn(c, s, step);
    } else if step.Start? || step.List? || step.Close? || step.Crash? || step.RemoveDead? {
      KeepBoundary(c, s, step);
    } else {
      KeepFlow(c, s, step);
    }
  }

  /** What the other steps may do to a unit: create it, queue it, hand it to a worker, abandon it. */
  predicate Carried(s: State, s': State, t: nat)
    requires t in s'.units
  {
    || (t in s.units && s'.units[t].req == s.units[t].req
        && (s'.units[t].loc == s.units[t].loc || s'.units[t].loc == Queued || s'.units[t].loc == Handling))
    || BeforeWorkers(s'.units[t].loc)
  }

  lemma DrainCheckCarries(s: State, t: nat)
    requires s.mode.Draining? && t in ApplyDrainCheck(s).units
    ensures Carried(s, ApplyDrainCheck(s), t)
  {
  }

  lemma OwnerCarries(c: Config, s: State, step: Step, t: nat)
    requires (step.RecoverNext? || step.Submit?) && Enabled(c, s, step) && t in Apply(c, s, step).units
    ensures Carried(s, Apply(c, s, step), t)
  {
  }

  lemma OutsideCarries(c: Config, s: State, step: Step, t: nat)
    requires Enabled(c, s, step) && !OnUnit(step) && t in Apply(c, s, step).units
    ensures Carried(s, Apply(c, s, step), t)
  {
    if step.DrainCheck? {
      DrainCheckCarries(s, t);
    } else if step.RecoverNext? || step.Submit? {
      OwnerCarries(c, s, step, t);
    }
  }
}
