/**
  Replaying the dead-letter queue (async_hardened_client/dead_letter.py) through the live client, that
  is, through the steps of the lifecycle.
*/
module DeadLetter {
  import opened Models
  import opened Storage
  import opened Dedup
  import opened Lifecycle
  import opened Invariant
  import opened Measures
  import opened Drain
  import opened Runs

  const REPLAY_LIMIT := 10_000

  function KeyList(dead: seq<DeadRow>): seq<Key> {
    seq(|dead|, i requires 0 <= i < |dead| => dead[i].key)
  }

  /** The keys of the rows, with multiplicity: nothing makes them unique. */
  function DeadKeys(dead: seq<DeadRow>): multiset<Key> { multiset(KeyList(dead)) }

  // ----- one submission on a quiescent client

  predicate AfterPush(loc: Loc) { loc.DeadPushed? || loc.DeadErased? }

  /** `db` has one DLQ row more than `db0`, for `key` and under the next id, if `pushed`, and else the same ones. */
  predicate DeadGrown(db0: Tables, db: Tables, key: Key, pushed: bool) {
    if pushed then
      && db.nextDeadId == db0.nextDeadId + 1 && |db.dead| == |db0.dead| + 1 && db.dead[..|db0.dead|] == db0.dead
      && db.dead[|db0.dead|].key == key && db.dead[|db0.dead|].id == db0.nextDeadId
    else db.dead == db0.dead && db.nextDeadId == db0.nextDeadId
  }

  /** The DLQ grows by the row of `key` while its future `f` is on its way to failing, and not otherwise. */
  predicate DeadMatches(c: Config, s: State, f: nat, key: Key, db0: Tables) {
    f in s.reg.futures &&
    if f in s.units then
      KeyOf(c, s.units[f]) == key && s.reg.futures[f] == Pending && DeadGrown(db0, s.db, key, AfterPush(s.units[f].loc))
    else
      s.reg.futures[f] != Pending && DeadGrown(db0, s.db, key, s.reg.futures[f].Failed?)
  }

  ghost predicate Serving(c: Config, s: State, f: nat, key: Key, db0: Tables) {
    && Inv(c, s) && s.mode == Running
    && (forall t :: t in s.units ==> t == f)
    && DeadMatches(c, s, f, key, db0)
    && (f in s.units && s.units[f].loc == Registered ==> key !in s.db.rows)
  }

  /** Nothing that matters here changes. */
  predicate Quiet(s: State, s': State, t: nat) {
    && t in s.units && t in s'.units && s'.units[t].req == s.units[t].req
    && AfterPush(s'.units[t].loc) == AfterPush(s.units[t].loc)
    && s'.db.dead == s.db.dead && s'.db.nextDeadId == s.db.nextDeadId && s'.reg == s.reg
  }

  lemma QuietWork(c: Config, s: State, step: Step)
    requires IsWork(step) && Enabled(c, s, step) && !step.PushDead?
    ensures Quiet(s, Apply(c, s, step), step.t)
  {
  }

  lemma QuietVerdict(c: Config, s: State, step: Step)
    requires IsVerdict(step) && Enabled(c, s, step)
    ensures Quiet(s, Apply(c, s, step), step.t)
  {
  }

  lemma QuietOwner(c: Config, s: State, step: Step)
    requires IsTouch(c, s, step) && Enabled(c, s, step) && !IsWork(step) && !IsVerdict(step)
    ensures Quiet(s, Apply(c, s, step), step.t)
  {
  }

  lemma QuietTouch(c: Config, s: State, step: Step)
    requires IsTouch(c, s, step) && Enabled(c, s, step) && !step.PushDead?
    ensures Quiet(s, Apply(c, s, step), step.t)
  {
    if IsWork(step) {
      QuietWork(c, s, step);
    } else if IsVerdict(step) {
      QuietVerdict(c, s, step);
    } else {
      QuietOwner(c, s, step);
    }
  }

  lemma QuietMove(c: Config, s: State, step: Step)
    requires Internal(step) && Enabled(c, s, step) && !IsTouch(c, s, step) && !step.Resolve? && !step.Fail?
    requires step.Dequeue? ==> s.units[s.queue[0]].loc == Queued
    ensures Quiet(s, Apply(c, s, step), Actor(s, step))
  {
  }

  lemma PushStep(c: Config, s: State, f: nat, key: Key, db0: Tables)
    requires Enabled(c, s, PushDead(f)) && DeadMatches(c, s, f, key, db0)
    ensures DeadMatches(c, Apply(c, s, PushDead(f)), f, key, db0)
  {
  }

  lemma SettleStep(c: Config, s: State, step: Step, f: nat, key: Key, db0: Tables)
    requires (step == Resolve(f) || step == Fail(f)) && Enabled(c, s, step) && UnitGood(c, s, f)
    requires DeadMatches(c, s, f, key, db0)
    ensures DeadMatches(c, Apply(c, s, step), f, key, db0)
  {
  }

  lemma DeadStep(c: Config, s: State, step: Step, f: nat, key: Key, db0: Tables)
    requires Internal(step) && Enabled(c, s, step) && UnitGood(c, s, f) && Actor(s, step) == f
    requires DeadMatches(c, s, f, key, db0) && (step.Dequeue? ==> s.units[f].loc == Queued)
    ensures DeadMatches(c, Apply(c, s, step), f, key, db0)
  {
    if step.PushDead? {
      PushStep(c, s, f, key, db0);
    } else if step.Resolve? || step.Fail? {
      SettleStep(c, s, step, f, key, db0);
    } else if IsTouch(c, s, step) {
      QuietTouch(c, s, step);
    } else {
      QuietMove(c, s, step);
    }
  }

  lemma ServingStep(c: Config, s: State, step: Step, f: nat, key: Key, db0: Tables)
    requires Serving(c, s, f, key, db0) && Internal(step) && Enabled(c, s, step)
    ensures Serving(c, Apply(c, s, step), f, key, db0)
  {
    ActorFacts(c, s, step);
    assert Actor(s, step) == f;
    DeadStep(c, s, step, f, key, db0);
    Preserved(c, s, step);
    ActsAlone(c, s, step);
    MovesOn(c, s, step);
  }

  ghost predicate MovedOn(c: Config, s: State, step: Step, t: nat)
    requires Enabled(c, s, step)
  {
    var s' := Apply(c, s, step);
    s'.mode == s.mode && (t in s'.units ==> s'.units[t].loc != Registered)
  }

  lemma TouchMovesOn(c: Config, s: State, step: Step)
    requires IsTouch(c, s, step) && Enabled(c, s, step)
    ensures MovedOn(c, s, step, step.t)
  {
  }

  lemma MovesOn(c: Config, s: State, step: Step)
    requires Internal(step) && Enabled(c, s, step)
    ensures MovedOn(c, s, step, Actor(s, step))
  {
    if IsTouch(c, s, step) {
      TouchMovesOn(c, s, step);
    }
  }

  /** The client carries on by itself. */
  ghost predicate Plays(c: Config, s: State, steps: seq<Step>)
    decreases |steps|
  {
    steps == [] || (Internal(steps[0]) && Enabled(c, s, steps[0]) && Plays(c, Apply(c, s, steps[0]), steps[1..]))
  }

  function Played(c: Config, s: State, steps: seq<Step>): State
    requires Plays(c, s, steps)
    decreases |steps|
  {
    if steps == [] then s else Played(c, Apply(c, s, steps[0]), steps[1..])
  }

  lemma {:induction false} PlayServes(c: Config, s: State, steps: seq<Step>, f: nat, key: Key, db0: Tables)
    requires Serving(c, s, f, key, db0) && Plays(c, s, steps)
    ensures Serving(c, Played(c, s, steps), f, key, db0)
    decreases |steps|
  {
    if steps == [] {
    } else {
      ServingStep(c, s, steps[0], f, key, db0);
      PlayServes(c, Apply(c, s, steps[0]), steps[1..], f, key, db0);
    }
  }

  ghost predicate Ready(c: Config, s: State) { Inv(c, s) && s.mode == Running && Quiescent(s) }

  lemma SubmitServes(c: Config, s: State, req: Request)
    requires Ready(c, s)
    ensures Serving(c, Apply(c, s, Submit(req)), s.nextId, IdempotencyKey(c.digest, req), s.db)
  {
    Preserved(c, s, Submit(req));
    SubmitShape(c, s, req);
  }

  lemma SubmitShape(c: Config, s: State, req: Request)
    requires Quiescent(s) && s.mode == Running
    ensures
      var s' := Apply(c, s, Submit(req));
      && s'.mode == Running && (forall t :: t in s'.units ==> t == s.nextId)
      && DeadMatches(c, s', s.nextId, IdempotencyKey(c.digest, req), s.db) && s'.db.rows == map[]
  {
  }

  /**
    A request submitted to a quiescent client that serves it to the end: its future is settled, and the
    DLQ has gained its row exactly when the caller got an error.
  */
  lemma RequestServed(c: Config, s: State, req: Request, play: seq<Step>)
    requires Ready(c, s) && Plays(c, Apply(c, s, Submit(req)), play)
    requires Quiescent(Played(c, Apply(c, s, Submit(req)), play))
    ensures
      var s' := Played(c, Apply(c, s, Submit(req)), play);
      && Ready(c, s') && s.nextId in s'.reg.futures && s'.reg.futures[s.nextId] != Pending
      && DeadGrown(s.db, s'.db, IdempotencyKey(c.digest, req), s'.reg.futures[s.nextId].Failed?)
  {
    SubmitServes(c, s, req);
    PlayServes(c, Apply(c, s, Submit(req)), play, s.nextId, IdempotencyKey(c.digest, req), s.db);
  }

  // ----- rows

  ghost predicate IdsGood(db: Tables) {
    && (forall i :: 0 <= i < |db.dead| ==> db.dead[i].id < db.nextDeadId)
    && (forall i, j :: 0 <= i < j < |db.dead| ==> db.dead[i].id != db.dead[j].id)
  }

  /** A DLQ row as `list_dead_letter` returns it. */
  datatype Entry = Entry(id: nat, key: Key, request: Request)

  ghost predicate InDead(dead: seq<DeadRow>, e: Entry) {
    exists i :: 0 <= i < |dead| && dead[i].id == e.id && dead[i].key == e.key
  }

  lemma {:induction false} WithoutAbsent(dead: seq<DeadRow>, id: nat)
    requires forall i :: 0 <= i < |dead| ==> dead[i].id != id
    ensures WithoutId(dead, id) == dead
  {
    if dead == [] {
    } else {
      WithoutAbsent(dead[1..], id);
    }
  }

  /** Deleting by id takes out the one row with that id. */
  lemma {:induction false} WithoutOne(dead: seq<DeadRow>, i: nat)
    requires i < |dead| && forall j, k :: 0 <= j < k < |dead| ==> dead[j].id != dead[k].id
    ensures WithoutId(dead, dead[i].id) == dead[..i] + dead[i + 1..]
  {
    if i == 0 {
      WithoutAbsent(dead[1..], dead[0].id);
    } else {
      WithoutOne(dead[1..], i - 1);
      assert dead[1..][..i - 1] == dead[1..i] && dead[1..][i..] == dead[i + 1..];
      assert [dead[0]] + dead[1..i] == dead[..i];
    }
  }

  lemma CutKeys(dead: seq<DeadRow>, i: nat)
    requires i < |dead|
    ensures DeadKeys(dead[..i] + dead[i + 1..]) + multiset{dead[i].key} == DeadKeys(dead)
  {
    var keys := KeyList(dead);
    assert KeyList(dead[..i] + dead[i + 1..]) == keys[..i] + keys[i + 1..];
    assert keys == keys[..i] + [keys[i]] + keys[i + 1..];
  }

  lemma CutOthers(dead: seq<DeadRow>, i: nat, e: Entry)
    requires i < |dead| && InDead(dead, e) && e.id != dead[i].id
    ensures InDead(dead[..i] + dead[i + 1..], e)
  {
    var j :| 0 <= j < |dead| && dead[j].id == e.id && dead[j].key == e.key;
    assert (dead[..i] + dead[i + 1..])[if j < i then j else j - 1] == dead[j];
  }

  lemma CutIds(db: Tables, i: nat)
    requires IdsGood(db) && i < |db.dead|
    ensures IdsGood(db.(dead := db.dead[..i] + db.dead[i + 1..]))
  {
  }

  lemma RemoveTakesOne(db: Tables, e: Entry)
    requires IdsGood(db) && InDead(db.dead, e)
    ensures
      var db' := RemoveDeadLetter(db, e.id);
      && IdsGood(db') && DeadKeys(db'.dead) + multiset{e.key} == DeadKeys(db.dead)
      && forall other :: InDead(db.dead, other) && other.id != e.id ==> InDead(db'.dead, other)
  {
    var i :| 0 <= i < |db.dead| && db.dead[i].id == e.id && db.dead[i].key == e.key;
    WithoutOne(db.dead, i);
    CutKeys(db.dead, i);
    CutIds(db, i);
    forall other | InDead(db.dead, other) && other.id != e.id
      ensures InDead(RemoveDeadLetter(db, e.id).dead, other)
    {
      CutOthers(db.dead, i, other);
    }
  }

  lemma GrownKeys(db0: Tables, db: Tables, key: Key, pushed: bool)
    requires IdsGood(db0) && DeadGrown(db0, db, key, pushed)
    ensures IdsGood(db) && DeadKeys(db.dead) == DeadKeys(db0.dead) + if pushed then multiset{key} else multiset{}
    ensures forall e :: InDead(db0.dead, e) ==> InDead(db.dead, e)
  {
    if pushed {
      assert KeyList(db.dead) == KeyList(db0.dead) + [key];
    }
    forall e | InDead(db0.dead, e)
      ensures InDead(db.dead, e)
    {
      var i :| 0 <= i < |db0.dead| && db0.dead[i].id == e.id && db0.dead[i].key == e.key;
      assert db.dead[i] == db0.dead[i];
    }
  }

  ghost predicate RestoresToKey(c: Config, row: DeadRow) {
    forall req :: Restores(row.payload, req) ==> IdempotencyKey(c.digest, req) == row.key
  }

  /** The rows of the DLQ have ids of their own and requests that hash to their keys. */
  ghost predicate TableGood(c: Config, db: Tables) {
    IdsGood(db) && forall i :: 0 <= i < |db.dead| ==> RestoresToKey(c, db.dead[i])
  }

  lemma {:induction false} WithoutKeeps(dead: seq<DeadRow>, id: nat)
    ensures forall row :: row in WithoutId(dead, id) ==> row in dead && row.id != id
    ensures (forall i, j :: 0 <= i < j < |dead| ==> dead[i].id != dead[j].id) ==>
      forall i, j :: 0 <= i < j < |WithoutId(dead, id)| ==> WithoutId(dead, id)[i].id != WithoutId(dead, id)[j].id
  {
    if dead == [] {
    } else {
      WithoutKeeps(dead[1..], id);
    }
  }

  lemma RemoveKeepsTable(c: Config, db: Tables, id: nat)
    requires TableGood(c, db)
    ensures TableGood(c, RemoveDeadLetter(db, id))
  {
    WithoutKeeps(db.dead, id);
    forall row | row in WithoutId(db.dead, id)
      ensures row.id < db.nextDeadId && RestoresToKey(c, row)
    {
      assert row in db.dead;
    }
  }

  lemma PushKeepsTable(c: Config, db: Tables, req: Request, error: ErrorKind, retryCount: nat)
    requires TableGood(c, db)
    ensures TableGood(c, PushDeadLetter(db, IdempotencyKey(c.digest, req), req, error, retryCount))
  {
    var db' := PushDeadLetter(db, IdempotencyKey(c.digest, req), req, error, retryCount);
    forall i | 0 <= i < |db'.dead|
      ensures RestoresToKey(c, db'.dead[i])
    {
      if i < |db.dead| {
        assert db'.dead[i] == db.dead[i];
      }
    }
  }

  /** Only a push and a removal change the DLQ. */
  lemma DeadUnchanged(c: Config, s: State, step: Step)
    requires Enabled(c, s, step) && !step.PushDead? && !step.RemoveDead?
    ensures Apply(c, s, step).db.dead == s.db.dead && Apply(c, s, step).db.nextDeadId == s.db.nextDeadId
  {
  }

  lemma TableKept(c: Config, run: Run, m: nat)
    requires IsRun(c, run) && m < |run.steps| && TableGood(c, run.states[m].db)
    ensures TableGood(c, run.states[m + 1].db)
  {
    var s, step := run.states[m], run.steps[m];
    assert StepAt(c, run, m);
    if step.PushDead? {
      var u := s.units[step.t];
      PushKeepsTable(c, s.db, u.req, u.loc.error, u.attempt);
    } else if step.RemoveDead? {
      RemoveKeepsTable(c, s.db, step.id);
    } else {
      DeadUnchanged(c, s, step);
    }
  }

  /** What replay relies on holds in every state of every run: ids are unique, requests hash to their keys. */
  lemma {:induction false} DeadTableGood(c: Config, run: Run, i: nat)
    requires IsRun(c, run) && TableGood(c, run.states[0].db) && i < |run.states|
    ensures TableGood(c, run.states[i].db)
  {
    if i == 0 {
    } else {
      DeadTableGood(c, run, i - 1);
      TableKept(c, run, i - 1);
    }
  }

  // ----- replay

  datatype ReplayResult = ReplayResult(rowId: nat, requestId: string, succeeded: bool, error: Option<ErrorKind>)

  /** How client and upstream happen to serve a request that arrives in a given state. */
  type Server = (State, Request) -> seq<Step>

  ghost predicate ServerOk(c: Config, server: Server) {
    forall s, req :: Ready(c, s) ==> ServesWith(c, s, req, server(s, req))
  }

  lemma CarriesOn(c: Config, s: State, t: nat) returns (step: Step)
    requires Inv(c, s) && s.mode == Running && c.workers > 0 && c.maxSize > 0 && t in s.units && s.units[t].live
    ensures Internal(step) && Enabled(c, s, step)
    ensures Inv(c, Apply(c, s, step)) && Apply(c, s, step).mode == Running
    ensures Total(c, StepsLeft, Apply(c, s, step)) < Total(c, StepsLeft, s)
  {
    step := Progress(c, s, t);
    ActorFacts(c, s, step);
    StepLighter(c, s, step);
    MovesOn(c, s, step);
    Preserved(c, s, step);
  }

  lemma PlaysOn(c: Config, s: State, step: Step, rest: seq<Step>)
    requires Internal(step) && Enabled(c, s, step) && Plays(c, Apply(c, s, step), rest)
    ensures Plays(c, s, [step] + rest) && Played(c, s, [step] + rest) == Played(c, Apply(c, s, step), rest)
  {
    assert ([step] + rest)[1..] == rest;
  }

  /** From any running state the client can carry on until it is quiescent. */
  lemma {:induction false} CanFinish(c: Config, s: State) returns (play: seq<Step>)
    requires Inv(c, s) && s.mode == Running && c.workers > 0 && c.maxSize > 0
    ensures Plays(c, s, play) && Quiescent(Played(c, s, play))
    decreases Total(c, StepsLeft, s)
  {
    if t :| t in s.units && s.units[t].live {
      var step := CarriesOn(c, s, t);
      var rest := CanFinish(c, Apply(c, s, step));
      PlaysOn(c, s, step, rest);
      play := [step] + rest;
    } else {
      EmptyMeansQuiescent(c, s);
      play := [];
    }
  }

  ghost predicate ServesWith(c: Config, s: State, req: Request, play: seq<Step>)
    requires s.mode != Down
  {
    Plays(c, Apply(c, s, Submit(req)), play) && Quiescent(Played(c, Apply(c, s, Submit(req)), play))
  }

  lemma CanServe(c: Config, s: State, req: Request)
    requires Ready(c, s) && c.workers > 0 && c.maxSize > 0
    ensures exists play :: ServesWith(c, s, req, play)
  {
    SubmitServes(c, s, req);
    var play := CanFinish(c, Apply(c, s, Submit(req)));
    assert ServesWith(c, s, req, play);
  }

  ghost function SomeService(c: Config, s: State, req: Request): seq<Step>
    requires c.workers > 0 && c.maxSize > 0
  {
    if Ready(c, s) then CanServe(c, s, req); var play :| ServesWith(c, s, req, play); play else []
  }

  /** A client with workers and a queue does serve every request: there is such a server. */
  lemma ServerExists(c: Config)
    requires c.workers > 0 && c.maxSize > 0
    ensures exists server: Server :: ServerOk(c, server)
  {
    var server: Server := (s: State, req: Request) => SomeService(c, s, req);
    forall s, req | Ready(c, s)
      ensures ServesWith(c, s, req, server(s, req))
    {
      CanServe(c, s, req);
    }
    assert ServerOk(c, server);
  }

  /** The replay of `e` up to the removal of its row, or up to the end of `play` after the re-submission. */
  ghost predicate ReplayUpTo(c: Config, s: State, e: Entry, req: Request, submitted: bool, play: seq<Step>) {
    if submitted then s.mode != Down && Plays(c, Apply(c, Apply(c, s, RemoveDead(e.id)), Submit(req)), play)
    else play == []
  }

  function ReplayState(c: Config, s: State, e: Entry, req: Request, submitted: bool, play: seq<Step>): State
    requires ReplayUpTo(c, s, e, req, submitted, play)
  {
    var s1 := Apply(c, s, RemoveDead(e.id));
    if submitted then Played(c, Apply(c, s1, Submit(req)), play) else s1
  }

  /** The client has taken out the row of `e`, been given `req`, and worked on it until it was at rest. */
  ghost predicate ReplayedAs(c: Config, s: State, e: Entry, req: Request, s': State) {
    exists play ::
      && ReplayUpTo(c, s, e, req, true, play) && s' == ReplayState(c, s, e, req, true, play) && Quiescent(s')
  }

  /** Remove the row, re-submit its request through the public API, report how the future settled. */
  method ReplayEntry(c: Config, s: State, e: Entry, server: Server, newId: string, now: real)
    returns (s': State, r: ReplayResult)
    requires Ready(c, s) && IdsGood(s.db) && ServerOk(c, server)
    requires InDead(s.db.dead, e) && IdempotencyKey(c.digest, e.request) == e.key
    ensures Ready(c, s') && IdsGood(s'.db) && r.rowId == e.id && r.requestId == e.request.requestId
    ensures r.succeeded <==> r.error == None
    ensures ReplayedAs(c, s, e, Resubmitted(e.request, newId, now), s')
    ensures DeadKeys(s'.db.dead) + (if r.succeeded then multiset{e.key} else multiset{}) == DeadKeys(s.db.dead)
    ensures forall other :: InDead(s.db.dead, other) && other.id != e.id ==> InDead(s'.db.dead, other)
  {
    RemoveTakesOne(s.db, e);
    KeepRemoveDead(c, s, e.id);
    var s1 := Apply(c, s, RemoveDead(e.id));
    var req := Resubmitted(e.request, newId, now);
    ResubmitKeepsKey(c.digest, e.request, newId, now);
    var play := server(s1, req);
    RequestServed(c, s1, req, play);
    s' := Played(c, Apply(c, s1, Submit(req)), play);
    GrownKeys(s1.db, s'.db, e.key, s'.reg.futures[s1.nextId].Failed?);
    assert ReplayUpTo(c, s, e, req, true, play) && s' == ReplayState(c, s, e, req, true, play);
    var future := s'.reg.futures[s1.nextId];
    r := ReplayResult(e.id, e.request.requestId, future.Resolved?, if future.Failed? then Some(future.error) else None);
  }

  /** Row `i` of the table is what `e` was read from. */
  ghost predicate ReadFrom(dead: seq<DeadRow>, i: nat, e: Entry) {
    i < |dead| && dead[i].id == e.id && dead[i].key == e.key && Restores(dead[i].payload, e.request)
  }

  /** The rows `list_dead_letter(limit)` may return; their order does not matter here. */
  ghost predicate ListsDead(db: Tables, rows: seq<Entry>, limit: nat) {
    && |rows| == (if |db.dead| <= limit then |db.dead| else limit)
    && (forall i :: 0 <= i < |rows| ==> exists k :: ReadFrom(db.dead, k, rows[i]))
    && (forall i, j :: 0 <= i < j < |rows| ==> rows[i].id != rows[j].id)
  }

  lemma ListedRow(c: Config, db: Tables, rows: seq<Entry>, limit: nat, i: nat)
    requires TableGood(c, db) && ListsDead(db, rows, limit) && i < |rows|
    ensures InDead(db.dead, rows[i]) && IdempotencyKey(c.digest, rows[i].request) == rows[i].key
  {
    var k: nat :| ReadFrom(db.dead, k, rows[i]);
    assert RestoresToKey(c, db.dead[k]);
  }

  /** The keys of the rows whose replay succeeded. */
  function SucceededKeys(rows: seq<Entry>, results: seq<ReplayResult>): multiset<Key>
    requires |results| <= |rows|
  {
    if results == [] then multiset{}
    else
      var n := |results| - 1;
      SucceededKeys(rows, results[..n]) + if results[n].succeeded then multiset{rows[n].key} else multiset{}
  }

  /** Where `replay_all` stands after its first |results| rows. */
  ghost predicate Halfway(start: State, rows: seq<Entry>, s: State, results: seq<ReplayResult>) {
    && |results| <= |rows|
    && (forall j :: 0 <= j < |results| ==> results[j].rowId == rows[j].id)
    && (forall j :: |results| <= j < |rows| ==> InDead(s.db.dead, rows[j]))
    && DeadKeys(s.db.dead) + SucceededKeys(rows, results) == DeadKeys(start.db.dead)
  }

  lemma OneFurther(start: State, rows: seq<Entry>, s: State, results: seq<ReplayResult>, s': State, r: ReplayResult)
    requires Halfway(start, rows, s, results) && |results| < |rows| && r.rowId == rows[|results|].id
    requires forall i, j :: 0 <= i < j < |rows| ==> rows[i].id != rows[j].id
    requires DeadKeys(s'.db.dead) + (if r.succeeded then multiset{rows[|results|].key} else multiset{})
          == DeadKeys(s.db.dead)
    requires forall other :: InDead(s.db.dead, other) && other.id != rows[|results|].id ==> InDead(s'.db.dead, other)
    ensures Halfway(start, rows, s', results + [r])
  {
    assert (results + [r])[..|results|] == results;
  }

  /**
    `replay_all` on a quiescent client that does not crash: one result per row of the snapshot, and the
    keys in the DLQ afterwards are those before minus the ones that succeeded, with multiplicity.
  */
  method ReplayAll(c: Config, start: State, rows: seq<Entry>, server: Server, newId: string, now: real)
    returns (s: State, results: seq<ReplayResult>)
    requires Ready(c, start) && TableGood(c, start.db) && ServerOk(c, server) && ListsDead(start.db, rows, REPLAY_LIMIT)
    ensures Ready(c, s) && |results| == |rows| && forall i :: 0 <= i < |rows| ==> results[i].rowId == rows[i].id
    ensures DeadKeys(s.db.dead) + SucceededKeys(rows, results) == DeadKeys(start.db.dead)
  {
    s, results := start, [];
    forall i: nat | i < |rows|
      ensures InDead(start.db.dead, rows[i])
    {
      ListedRow(c, start.db, rows, REPLAY_LIMIT, i);
    }
    for i := 0 to |rows|
      invariant Ready(c, s) && IdsGood(s.db) && |results| == i && Halfway(start, rows, s, results)
    {
      ListedRow(c, start.db, rows, REPLAY_LIMIT, i);
      var s', r := ReplayEntry(c, s, rows[i], server, newId, now);
      OneFurther(start, rows, s, results, s', r);
      s, results := s', results + [r];
    }
  }

  // ----- a crash in the middle of a replay

  /** An HTTP success was received for the unit of `f`. */
  predicate MarksSuccess(s: State, f: nat) {
    || (f in s.units && (s.units[f].loc.SuccessNoted? || s.units[f].loc.SuccessErased?))
    || (f in s.reg.futures && s.reg.futures[f].Resolved?)
  }

  predicate IsSuccess(step: Step) { step.Reply? && step.outcome.Success? }

  lemma TouchMarks(c: Config, s: State, step: Step)
    requires IsTouch(c, s, step) && Enabled(c, s, step)
    ensures MarksSuccess(Apply(c, s, step), step.t) ==> MarksSuccess(s, step.t) || IsSuccess(step)
  {
  }

  lemma MoveMarks(c: Config, s: State, step: Step)
    requires Internal(step) && Enabled(c, s, step) && !IsTouch(c, s, step)
    ensures MarksSuccess(Apply(c, s, step), Actor(s, step)) ==> MarksSuccess(s, Actor(s, step))
  {
  }

  predicate Served(play: seq<Step>) { exists i :: 0 <= i < |play| && IsSuccess(play[i]) }

  lemma ServedRest(play: seq<Step>)
    requires play != [] && (IsSuccess(play[0]) || Served(play[1..]))
    ensures Served(play)
  {
    if !IsSuccess(play[0]) {
      var i :| 0 <= i < |play[1..]| && IsSuccess(play[1..][i]);
      assert IsSuccess(play[i + 1]);
    }
  }

  /** In a play of the only unit there is, a success is marked only after it was received. */
  lemma {:induction false} PlayMarks(c: Config, s: State, play: seq<Step>, f: nat, key: Key, db0: Tables)
    requires Serving(c, s, f, key, db0) && Plays(c, s, play) && MarksSuccess(Played(c, s, play), f)
    ensures MarksSuccess(s, f) || Served(play)
    decreases |play|
  {
    if play == [] {
    } else {
      if IsSuccess(play[0]) || Served(play[1..]) {
        ServedRest(play);
        return;
      }
      ServingStep(c, s, play[0], f, key, db0);
      PlayMarks(c, Apply(c, s, play[0]), play[1..], f, key, db0);
      MarksBefore(c, s, play[0], f, key, db0);
    }
  }

  lemma MarksBefore(c: Config, s: State, step: Step, f: nat, key: Key, db0: Tables)
    requires Serving(c, s, f, key, db0) && Internal(step) && Enabled(c, s, step)
    ensures MarksSuccess(Apply(c, s, step), f) ==> MarksSuccess(s, f) || IsSuccess(step)
  {
    InternalActor(c, s, step);
    if IsTouch(c, s, step) {
      TouchMarks(c, s, step);
    } else {
      MoveMarks(c, s, step);
    }
  }

  /** Once it has moved, the unit is past its upsert. */
  lemma {:induction false} PlayMoves(c: Config, s: State, play: seq<Step>, f: nat, key: Key, db0: Tables)
    requires Serving(c, s, f, key, db0) && Plays(c, s, play)
    requires play == [] ==> f in s.units ==> s.units[f].loc != Registered
    ensures f in Played(c, s, play).units ==> Played(c, s, play).units[f].loc != Registered
    decreases |play|
  {
    if play == [] {
    } else {
      ServingStep(c, s, play[0], f, key, db0);
      InternalActor(c, s, play[0]);
      MovesOn(c, s, play[0]);
      PlayMoves(c, Apply(c, s, play[0]), play[1..], f, key, db0);
    }
  }

  /** The first thing a new owner does is its upsert. */
  lemma FirstIsUpsert(c: Config, s: State, step: Step, f: nat)
    requires Internal(step) && Enabled(c, s, step) && Actor(s, step) in s.units
    requires forall t :: t in s.units ==> t == f && s.units[t].loc == Registered
    requires step.Dequeue? ==> s.units[s.queue[0]].loc == Queued
    ensures step.Upsert?
  {
  }

  /** Once past its upsert, the work is on record: in a row, in the DLQ or as a success received. */
  lemma OnRecord(c: Config, s: State, f: nat, key: Key, db0: Tables)
    requires Serving(c, s, f, key, db0) && (f in s.units ==> s.units[f].loc != Registered)
    ensures key in s.db.rows || DeadGrown(db0, s.db, key, true) || MarksSuccess(s, f)
  {
    if f in s.units {
      UnitFacts(c, s, f);
    }
  }

  /** In neither table: the DLQ of `db` is short of the row it had in `db0`, and no inflight row stands in for it. */
  predicate Missing(db0: Tables, db: Tables, key: Key) {
    key !in db.rows && DeadKeys(db.dead) + multiset{key} == DeadKeys(db0.dead)
  }

  predicate Upserted(play: seq<Step>) { exists i :: 0 <= i < |play| && play[i].Upsert? }

  lemma PlayUpserts(c: Config, s: State, req: Request, play: seq<Step>)
    requires Ready(c, s) && Plays(c, Apply(c, s, Submit(req)), play)
    ensures Upserted(play) <==> play != []
  {
    if play == [] {
    } else {
      SubmitServes(c, s, req);
      SubmitFresh(c, s, req);
      ActorFacts(c, Apply(c, s, Submit(req)), play[0]);
      FirstIsUpsert(c, Apply(c, s, Submit(req)), play[0], s.nextId);
    }
  }

  lemma PlayOnRecord(c: Config, s: State, req: Request, play: seq<Step>)
    requires Ready(c, s) && Plays(c, Apply(c, s, Submit(req)), play) && play != [] && !Served(play)
    ensures
      var db, key := Played(c, Apply(c, s, Submit(req)), play).db, IdempotencyKey(c.digest, req);
      key in db.rows || DeadGrown(s.db, db, key, true)
  {
    var s2, f, key := Apply(c, s, Submit(req)), s.nextId, IdempotencyKey(c.digest, req);
    SubmitServes(c, s, req);
    SubmitFresh(c, s, req);
    PlayServes(c, s2, play, f, key, s.db);
    PlayMoves(c, s2, play, f, key, s.db);
    OnRecord(c, Played(c, s2, play), f, key, s.db);
    if MarksSuccess(Played(c, s2, play), f) {
      PlayMarks(c, s2, play, f, key, s.db);
    }
  }

  lemma SubmittedMissing(c: Config, db0: Tables, s: State, req: Request, play: seq<Step>)
    requires Ready(c, s) && IdsGood(s.db) && Plays(c, Apply(c, s, Submit(req)), play)
    requires DeadKeys(s.db.dead) + multiset{IdempotencyKey(c.digest, req)} == DeadKeys(db0.dead)
    ensures
      var db := Played(c, Apply(c, s, Submit(req)), play).db;
      (Missing(db0, db, IdempotencyKey(c.digest, req)) && !Served(play)) <==> !Upserted(play)
  {
    var db, key := Played(c, Apply(c, s, Submit(req)), play).db, IdempotencyKey(c.digest, req);
    PlayUpserts(c, s, req, play);
    if play == [] {
      SubmitFresh(c, s, req);
    } else if !Served(play) {
      PlayOnRecord(c, s, req, play);
      if DeadGrown(s.db, db, key, true) {
        GrownKeys(s.db, db, key, true);
        NotShort(DeadKeys(db.dead), DeadKeys(db0.dead), key);
      }
    }
  }

  lemma NotShort(keys: multiset<Key>, before: multiset<Key>, key: Key)
    requires keys == before
    ensures keys + multiset{key} != before
  {
    assert (keys + multiset{key})[key] == before[key] + 1;
  }

  lemma SubmitFresh(c: Config, s: State, req: Request)
    requires Ready(c, s)
    ensures
      var s' := Apply(c, s, Submit(req));
      && s'.db == s.db && s'.queue == [] && !MarksSuccess(s', s.nextId)
      && forall t :: t in s'.units ==> t == s.nextId && s'.units[t].loc == Registered
  {
  }

  /**
    The row is removed before the re-submission persists.  Wherever in a replay the process crashes, the
    work is then in neither table, and was not served, if and only if the re-submission had not committed
    its upsert: from the removal of the row on, before the request is registered and after.
  */
  lemma CrashDuringReplay(c: Config, s: State, e: Entry, newId: string, now: real, submitted: bool, play: seq<Step>)
    requires Ready(c, s) && IdsGood(s.db) && InDead(s.db.dead, e) && IdempotencyKey(c.digest, e.request) == e.key
    requires ReplayUpTo(c, s, e, Resubmitted(e.request, newId, now), submitted, play)
    ensures
      var s' := ReplayState(c, s, e, Resubmitted(e.request, newId, now), submitted, play);
      (Missing(s.db, Wiped(s').db, e.key) && !Served(play)) <==> !Upserted(play)
  {
    var s1, req := Apply(c, s, RemoveDead(e.id)), Resubmitted(e.request, newId, now);
    RemoveTakesOne(s.db, e);
    if submitted {
      KeepRemoveDead(c, s, e.id);
      ResubmitKeepsKey(c.digest, e.request, newId, now);
      SubmittedMissing(c, s.db, s1, req, play);
    }
  }

  /**
    So every replay can lose its row: when the process crashes right after the re-submission has been
    registered, the DLQ is short of one row of that key and no inflight row stands in for it.
  */
  lemma ReplayCanLose(c: Config, s: State, e: Entry, newId: string, now: real)
    requires Ready(c, s) && IdsGood(s.db) && InDead(s.db.dead, e)
    ensures
      var s1 := Apply(c, s, RemoveDead(e.id));
      var s2 := Apply(c, s1, Submit(Resubmitted(e.request, newId, now)));
      var s3 := Apply(c, s2, Crash);
      && s3.db.rows == map[] && s3.units == map[]
      && DeadKeys(s3.db.dead) + multiset{e.key} == DeadKeys(s.db.dead)
  {
    RemoveTakesOne(s.db, e);
  }
}
