/** Starts on which nobody submits, starts that hang, and what the start after a graceful stop takes up. */
module Recovery {
  import opened Models
  import opened Storage
  import opened Dedup
  import opened Lifecycle
  import opened Invariant
  import opened Runs
  import opened Executions
  import opened Stop
  import opened Startup

  // ----- recovery when nobody submits

  /** Position `i` of the queue holds row `i` of the snapshot, at its saved count. */
  ghost predicate HoldsSnapshot(s: State, snap: seq<InflightRow>, n: nat)
    requires n <= |s.queue| && n <= |snap|
  {
    forall i :: 0 <= i < n ==>
      s.queue[i] in s.units && s.units[s.queue[i]] == Unit(snap[i].request, snap[i].retryCount, Queued, true)
  }

  /** The recovery loop has enqueued a prefix of the snapshot and blocks only on a full queue. */
  ghost predicate Replaying(c: Config, s: State, snap: seq<InflightRow>) {
    && s.mode.Starting?
    && |s.queue| + Blocked(s) <= |snap|
    && s.mode.remaining == snap[|s.queue| + Blocked(s)..]
    && HoldsSnapshot(s, snap, |s.queue|)
    && (s.mode.blocked.Some? ==> Full(c, s))
    && (forall key :: key in s.reg.inflight ==> exists i :: 0 <= i < |s.queue| + Blocked(s) && snap[i].key == key)
  }

  lemma NotReached(c: Config, s: State, snap: seq<InflightRow>)
    requires Replaying(c, s, snap) && DistinctKeys(snap) && s.mode.blocked == None && s.mode.remaining != []
    ensures s.mode.remaining[0] == snap[|s.queue|] && s.mode.remaining[0].key !in s.reg.inflight
  {
  }

  lemma PickReplaying(c: Config, s: State, s': State, snap: seq<InflightRow>)
    requires Replaying(c, s, snap) && PicksFirst(s, s') && (s'.mode.blocked.Some? ==> Full(c, s))
    requires s.mode.remaining[0] == snap[|s.queue|]
    requires s'.reg.inflight.Keys == s.reg.inflight.Keys + {s.mode.remaining[0].key}
    requires forall t :: t in s.units ==> t < s.nextId
    ensures Replaying(c, s', snap)
  {
    var n := |s.queue|;
    assert snap[n..][1..] == snap[n + 1..];
    forall key | key in s'.reg.inflight
      ensures exists i :: 0 <= i < n + 1 && snap[i].key == key
    {
      if key == snap[n].key {
      } else {
        assert key in s.reg.inflight;
      }
    }
  }

  lemma PickWaits(c: Config, s: State)
    requires Enabled(c, s, RecoverNext)
    ensures Apply(c, s, RecoverNext).mode.Starting?
    ensures Apply(c, s, RecoverNext).mode.blocked.Some? ==> Full(c, s)
  {
  }

  lemma ReplayingNext(c: Config, s: State, snap: seq<InflightRow>)
    requires Replaying(c, s, snap) && DistinctKeys(snap) && Enabled(c, s, RecoverNext)
    requires forall t :: t in s.units ==> t < s.nextId
    ensures Replaying(c, Apply(c, s, RecoverNext), snap)
  {
    NotReached(c, s, snap);
    PickShape(c, s);
    NextShape(c, s);
    PickWaits(c, s);
    PickReplaying(c, s, Apply(c, s, RecoverNext), snap);
  }

  ghost predicate RecoveredAlone(s: State, snap: seq<InflightRow>) {
    s.mode == Running && |s.queue| == |snap| && HoldsSnapshot(s, snap, |snap|)
  }

  lemma ReplayingStep(c: Config, s: State, snap: seq<InflightRow>, step: Step)
    requires Replaying(c, s, snap) && DistinctKeys(snap) && Enabled(c, s, step) && IsRecovery(step)
    requires forall t :: t in s.units ==> t < s.nextId
    ensures
      var s' := Apply(c, s, step);
      if step.RecoverDone? then RecoveredAlone(s', snap) && s.mode.blocked == None
      else Replaying(c, s', snap) && |s'.queue| + Blocked(s') == |s.queue| + Blocked(s) + 1
  {
    if step.RecoverNext? {
      ReplayingNext(c, s, snap);
    }
  }

  lemma ListReplays(c: Config, s: State, snap: seq<InflightRow>)
    requires Enabled(c, s, List(snap)) && s.queue == [] && s.reg == EMPTY_REGISTRY
    ensures DistinctKeys(snap) && Replaying(c, Apply(c, s, List(snap)), snap)
  {
  }

  lemma StartsEmpty(c: Config, run: Run, i: nat)
    requires IsRun(c, run) && i < |run.steps| && run.steps[i] == Start
    ensures run.states[i + 1].queue == [] && run.states[i + 1].reg == EMPTY_REGISTRY
  {
    Reachable(c, run, i);
    assert StepAt(c, run, i);
  }

  /** From the snapshot at step `i`, right after the start, nothing but the recovery loop runs until `j`. */
  ghost predicate RecoveryAlone(c: Config, run: Run, i: nat, j: nat) {
    && IsRun(c, run) && 0 < i < j < |run.states| && run.steps[i - 1] == Start && run.steps[i].List?
    && forall m :: i < m < j ==> IsRecovery(run.steps[m])
  }

  lemma UnitsNumbered(c: Config, run: Run, m: nat)
    requires IsRun(c, run) && m < |run.states|
    ensures forall t :: t in run.states[m].units ==> t < run.states[m].nextId
  {
    Reachable(c, run, m);
  }

  lemma {:induction false} AloneReplays(c: Config, run: Run, i: nat, j: nat)
    requires RecoveryAlone(c, run, i, j)
    ensures
      var s, snap := run.states[j], run.steps[i].listing;
      && DistinctKeys(snap)
      && (RecoveredAlone(s, snap) || (Replaying(c, s, snap) && |s.queue| + Blocked(s) == j - i - 1))
    decreases j
  {
    var snap := run.steps[i].listing;
    assert StepAt(c, run, j - 1);
    if j == i + 1 {
      StartsEmpty(c, run, i - 1);
      ListReplays(c, run.states[i], snap);
    } else {
      AloneReplays(c, run, i, j - 1);
      UnitsNumbered(c, run, j - 1);
      ReplayingStep(c, run.states[j - 1], snap, run.steps[j - 1]);
    }
  }

  /** What the recovery loop does next, when it can do anything. */
  lemma RecoveryMoves(c: Config, s: State, snap: seq<InflightRow>)
    requires Replaying(c, s, snap) && s.mode.blocked == None
    ensures Enabled(c, s, RecoverNext) || Enabled(c, s, RecoverDone)
  {
  }

  lemma QueueBounded(c: Config, run: Run, m: nat)
    requires IsRun(c, run) && m < |run.states|
    ensures |run.states[m].queue| <= c.maxSize
  {
    Reachable(c, run, m);
  }

  /**
    So a start on which nobody submits brings the workers up if and only if the rows fit in the queue, and
    the queue then is the listing.
  */
  lemma AloneFits(c: Config, run: Run, i: nat, j: nat)
    requires RecoveryAlone(c, run, i, j)
    requires forall step :: IsRecovery(step) ==> !Enabled(c, run.states[j], step)
    ensures
      var s, snap := run.states[j], run.steps[i].listing;
      && (s.mode == Running <==> |snap| <= c.maxSize)
      && (s.mode == Running ==> |s.queue| == |snap| && HoldsSnapshot(s, snap, |snap|))
      && (s.mode != Running ==> IsStuck(s) && Full(c, s) && |s.queue| < |snap| && HoldsSnapshot(s, snap, |s.queue|))
  {
    var s, snap := run.states[j], run.steps[i].listing;
    AloneReplays(c, run, i, j);
    QueueBounded(c, run, j);
    if Replaying(c, s, snap) && s.mode.blocked == None {
      RecoveryMoves(c, s, snap);
    }
  }

  // ----- a start that hangs

  lemma Extended(c: Config, run: Run, step: Step) returns (run': Run)
    requires IsRun(c, run) && Enabled(c, run.states[|run.steps|], step)
    ensures IsRun(c, run') && run'.steps == run.steps + [step] && run'.states[..|run.states|] == run.states
    ensures run'.states[|run'.steps|] == Apply(c, run.states[|run.steps|], step)
  {
    run' := Run(run.states + [Apply(c, run.states[|run.steps|], step)], run.steps + [step]);
    forall i: nat | i < |run'.steps|
      ensures StepAt(c, run', i)
    {
      assert i < |run.steps| ==> StepAt(c, run, i);
    }
  }

  /** `run` goes on with nothing but the recovery loop. */
  ghost predicate RecoversOn(run: Run, run': Run) {
    && |run.states| <= |run'.states| && run'.states[..|run.states|] == run.states
    && |run.steps| <= |run'.steps| && run'.steps[..|run.steps|] == run.steps
    && forall m :: |run.steps| <= m < |run'.steps| ==> run'.steps[m] == RecoverNext
  }

  lemma OverloadMoves(c: Config, run: Run)
    requires IsRun(c, run)
    ensures
      var s := run.states[|run.steps|];
      s.mode.Starting? && Demand(s) > c.maxSize && !IsStuck(s) ==> Enabled(c, s, RecoverNext)
  {
    QueueBounded(c, run, |run.steps|);
  }

  /** Whenever the queue will have to hold more than it can, the recovery loop gets stuck if left alone. */
  lemma {:induction false} OverloadHangs(c: Config, run: Run) returns (run': Run)
    requires IsRun(c, run) && run.states[|run.steps|].mode.Starting? && Demand(run.states[|run.steps|]) > c.maxSize
    ensures IsRun(c, run') && RecoversOn(run, run') && IsStuck(run'.states[|run'.steps|])
    decreases |Remaining(run.states[|run.steps|].mode)|
  {
    var s := run.states[|run.steps|];
    if IsStuck(s) {
      run' := run;
    } else {
      OverloadMoves(c, run);
      var more := Extended(c, run, RecoverNext);
      NextShape(c, s);
      DemandAt(c, more, |run.steps|, Demand(s));
      run' := OverloadHangs(c, more);
    }
  }

  /** `start` has opened the session and read the rows `snap`. */
  ghost predicate HasListed(c: Config, run: Run, s0: State, snap: seq<InflightRow>) {
    && IsRun(c, run) && |run.steps| >= 2 && run.states[0] == s0 && run.steps[0] == Start && run.steps[1] == List(snap)
  }

  lemma StartBegins(c: Config, s0: State, snap: seq<InflightRow>) returns (run: Run)
    requires Boot(c, s0) && ListsInflight(s0.db, snap)
    ensures HasListed(c, run, s0, snap) && |run.steps| == 2
    ensures run.states[2] == s0.(mode := Starting(snap, None)) && Demand(run.states[2]) == |snap|
  {
    run := Run([s0], []);
    run := Extended(c, run, Start);
    run := Extended(c, run, List(snap));
    UnclaimedAll(snap);
    assert s0.reg.inflight.Keys == {};
  }

  /** Every database with more rows than the queue has slots makes some start hang, without any caller's help. */
  lemma OverfullStartHangs(c: Config, s0: State, snap: seq<InflightRow>) returns (run: Run)
    requires Boot(c, s0) && ListsInflight(s0.db, snap) && |snap| > c.maxSize
    ensures HasListed(c, run, s0, snap) && forall m :: 2 <= m < |run.steps| ==> run.steps[m] == RecoverNext
    ensures IsStuck(run.states[|run.steps|])
  {
    var begun := StartBegins(c, s0, snap);
    run := OverloadHangs(c, begun);
  }

  lemma SubmitterQueues(c: Config, s: State, req: Request)
    requires s.mode.Starting? && s.reg == EMPTY_REGISTRY && s.queue == [] && c.maxSize > 0
    requires s.mode.blocked == None && IdempotencyKey(c.digest, req) !in KeysOf(s.mode.remaining)
    ensures
      var t := s.nextId;
      var s1 := Apply(c, s, Submit(req));
      && Enabled(c, s1, Upsert(t, 0.0))
      && var s2 := Apply(c, s1, Upsert(t, 0.0));
      && Enabled(c, s2, SubmitResume(t))
      && var s3 := Apply(c, s2, SubmitResume(t));
      s3.mode == s.mode && Demand(s3) == |s.mode.remaining| + 1
  {
    var key := IdempotencyKey(c.digest, req);
    ClaimOutside(s.mode.remaining, {}, key);
    UnclaimedAll(s.mode.remaining);
    assert EMPTY_REGISTRY.inflight[key := s.nextId].Keys == {} + {key};
  }

  /** A caller is accepted, persists its request and queues it. */
  lemma SubmitterRuns(c: Config, run: Run, req: Request) returns (run': Run)
    requires IsRun(c, run) && c.maxSize > 0
    requires var s := run.states[|run.steps|];
      && s.mode.Starting? && s.reg == EMPTY_REGISTRY && s.queue == [] && s.mode.blocked == None
      && IdempotencyKey(c.digest, req) !in KeysOf(s.mode.remaining)
    ensures IsRun(c, run') && |run'.steps| == |run.steps| + 3
    ensures run'.states[..|run.states|] == run.states && run'.steps[..|run.steps|] == run.steps
    ensures
      var s, s' := run.states[|run.steps|], run'.states[|run'.steps|];
      s'.mode == s.mode && Demand(s') == |s.mode.remaining| + 1
  {
    var s := run.states[|run.steps|];
    SubmitterQueues(c, s, req);
    var run1 := Extended(c, run, Submit(req));
    var run2 := Extended(c, run1, Upsert(s.nextId, 0.0));
    run' := Extended(c, run2, SubmitResume(s.nextId));
    assert run2.steps[..|run.steps|] == run1.steps[..|run.steps|] == run.steps;
  }

  /** Rows that fit exactly make some start hang once a caller has queued an item of its own. */
  lemma FittingStartCanHang(c: Config, s0: State, snap: seq<InflightRow>, req: Request) returns (run: Run)
    requires Boot(c, s0) && ListsInflight(s0.db, snap) && |snap| == c.maxSize > 0
    requires IdempotencyKey(c.digest, req) !in KeysOf(snap)
    ensures HasListed(c, run, s0, snap) && IsStuck(run.states[|run.steps|])
  {
    var begun := StartBegins(c, s0, snap);
    var submitted := SubmitterRuns(c, begun, req);
    run := OverloadHangs(c, submitted);
    FirstsKept(begun, submitted);
    FirstsKept(submitted, run);
  }

  lemma FirstsKept(run: Run, run': Run)
    requires |run.steps| >= 2 && |run.states| > 0 && |run.steps| <= |run'.steps| && |run.states| <= |run'.states|
    requires run'.states[..|run.states|] == run.states && run'.steps[..|run.steps|] == run.steps
    ensures run'.states[0] == run.states[0] && run'.steps[0] == run.steps[0] && run'.steps[1] == run.steps[1]
  {
    assert run'.states[..|run.states|][0] == run'.states[0];
    assert run'.steps[..|run.steps|][0] == run'.steps[0] && run'.steps[..|run.steps|][1] == run'.steps[1];
  }

  /** The table and its listing after the first upserts of `reqs`. */
  function RowsFor(c: Config, reqs: seq<Request>): map<Key, Row> {
    if reqs == [] then map[]
    else
      var n := |reqs| - 1;
      RowsFor(c, reqs[..n])[IdempotencyKey(c.digest, reqs[n]) := Row(ToStorage(reqs[n]), 0, 0.0)]
  }

  function ListingFor(c: Config, reqs: seq<Request>): seq<InflightRow> {
    seq(|reqs|, i requires 0 <= i < |reqs| => InflightRow(IdempotencyKey(c.digest, reqs[i]), reqs[i], 0, 0.0))
  }

  ghost predicate DistinctRequests(c: Config, reqs: seq<Request>) {
    forall i, j :: 0 <= i < j < |reqs| ==> IdempotencyKey(c.digest, reqs[i]) != IdempotencyKey(c.digest, reqs[j])
  }

  lemma {:induction false} RowsForAll(c: Config, reqs: seq<Request>)
    requires DistinctRequests(c, reqs)
    ensures forall i :: 0 <= i < |reqs| ==>
      && IdempotencyKey(c.digest, reqs[i]) in RowsFor(c, reqs)
      && RowsFor(c, reqs)[IdempotencyKey(c.digest, reqs[i])] == Row(ToStorage(reqs[i]), 0, 0.0)
    ensures forall key :: key in RowsFor(c, reqs) ==>
      exists i :: 0 <= i < |reqs| && IdempotencyKey(c.digest, reqs[i]) == key
  {
    if reqs == [] {
    } else {
      var n := |reqs| - 1;
      RowsForAll(c, reqs[..n]);
      assert forall i :: 0 <= i < n ==> reqs[..n][i] == reqs[i];
    }
  }

  lemma FirstUpsertGood(c: Config, req: Request)
    ensures Restores(ToStorage(req), req)
    ensures RowGood(c, IdempotencyKey(c.digest, req), Row(ToStorage(req), 0, 0.0))
  {
    assert FromStorage(ToStorage(req), "", 0.0) == Ok(req);
  }

  lemma RowsForGood(c: Config, reqs: seq<Request>)
    requires DistinctRequests(c, reqs)
    ensures forall key :: key in RowsFor(c, reqs) ==> RowGood(c, key, RowsFor(c, reqs)[key])
  {
    RowsForAll(c, reqs);
    forall key | key in RowsFor(c, reqs)
      ensures RowGood(c, key, RowsFor(c, reqs)[key])
    {
      var i :| 0 <= i < |reqs| && IdempotencyKey(c.digest, reqs[i]) == key;
      FirstUpsertGood(c, reqs[i]);
    }
  }

  /** `row` lists the row that the first upsert of `req` left. */
  ghost predicate ListsRequest(c: Config, db: Tables, row: InflightRow, req: Request) {
    && row == InflightRow(IdempotencyKey(c.digest, req), req, 0, 0.0)
    && row.key in db.rows && db.rows[row.key] == Row(ToStorage(req), 0, 0.0)
  }

  lemma ListsRequests(c: Config, db: Tables, rows: seq<InflightRow>, reqs: seq<Request>)
    requires |rows| == |reqs| && DistinctRequests(c, reqs)
    requires forall i :: 0 <= i < |rows| ==> ListsRequest(c, db, rows[i], reqs[i])
    requires forall key :: key in db.rows ==> exists i :: 0 <= i < |reqs| && IdempotencyKey(c.digest, reqs[i]) == key
    ensures ListsInflight(db, rows)
  {
    forall i | 0 <= i < |rows|
      ensures Restores(db.rows[rows[i].key].payload, rows[i].request)
    {
      FirstUpsertGood(c, reqs[i]);
    }
    forall key | key in db.rows
      ensures exists i :: 0 <= i < |rows| && rows[i].key == key
    {
      var i :| 0 <= i < |reqs| && IdempotencyKey(c.digest, reqs[i]) == key;
      assert rows[i].key == key;
    }
  }

  lemma RowsForListed(c: Config, reqs: seq<Request>)
    requires DistinctRequests(c, reqs)
    ensures ListsInflight(Tables(RowsFor(c, reqs), [], 1), ListingFor(c, reqs))
  {
    RowsForAll(c, reqs);
    ListsRequests(c, Tables(RowsFor(c, reqs), [], 1), ListingFor(c, reqs), reqs);
  }

  /** Such databases exist: any requests with different keys, one more than the queue has slots. */
  lemma StartCanHang(c: Config, reqs: seq<Request>) returns (run: Run)
    requires DistinctRequests(c, reqs) && |reqs| > c.maxSize
    ensures IsRun(c, run) && |run.states[0].db.rows| == |reqs| && IsStuck(run.states[|run.steps|])
  {
    var db, snap := Tables(RowsFor(c, reqs), [], 1), ListingFor(c, reqs);
    RowsForListed(c, reqs);
    RowsForGood(c, reqs);
    ListingCounts(db, snap);
    var s0 := State(Down, db, EMPTY_REGISTRY, [], 0, {}, map[], ZERO_COUNTERS, 0);
    assert Boot(c, s0);
    run := OverfullStartHangs(c, s0, snap);
  }

  // ----- stop, then start

  /** `u'` takes up in the queue what `u` left: the same key at the same attempt number. */
  predicate TakenUp(c: Config, u: Unit, u': Unit) {
    u'.loc == Queued && u'.live && KeyOf(c, u') == KeyOf(c, u) && u'.attempt == u.attempt
  }

  ghost predicate IsTakenUp(c: Config, u: Unit, s': State) {
    exists q :: 0 <= q < |s'.queue| && s'.queue[q] in s'.units && TakenUp(c, u, s'.units[s'.queue[q]])
  }

  ghost predicate TakesUp(c: Config, s: State, s': State, q: nat) {
    && q < |s'.queue| && s'.queue[q] in s'.units
    && exists t :: t in s.units && TakenUp(c, s.units[t], s'.units[s'.queue[q]])
  }

  /**
    `stop` is called at `b` while nobody submits and halts with the check at `i`; the client is closed, and
    the recovery of the start after it is over at `j`.
  */
  ghost predicate StopThenStart(c: Config, run: Run, b: nat, i: nat, j: nat) {
    && StopUpTo(c, run, b, i + 1) && NoSubmission(run.states[b]) && run.states[i + 1].mode == Halted
    && ExactDrains(run) && c.workers > 0 && c.maxSize > 0
    && RecoveryAlone(c, run, i + 3, j) && run.steps[i + 1] == Close
    && (forall step :: IsRecovery(step) ==> !Enabled(c, run.states[j], step))
    && |run.steps[i + 3].listing| <= c.maxSize
  }

  lemma BoundaryKeepsDb(c: Config, run: Run, m: nat)
    requires IsRun(c, run) && m < |run.steps| && (run.steps[m] == Close || run.steps[m] == Start)
    ensures run.states[m + 1].db == run.states[m].db
  {
    assert StepAt(c, run, m);
  }

  lemma HaltKeepsDb(c: Config, run: Run, m: nat)
    requires IsRun(c, run) && m < |run.steps| && run.steps[m] == DrainCheck && Drained(run.states[m])
    ensures run.states[m].mode.Draining? && run.states[m + 1].db == run.states[m].db
  {
    assert StepAt(c, run, m);
    DrainedHalts(c, run.states[m]);
  }

  lemma ListingAt(c: Config, run: Run, m: nat)
    requires IsRun(c, run) && m < |run.steps| && run.steps[m].List?
    ensures ListsInflight(run.states[m].db, run.steps[m].listing)
  {
    assert StepAt(c, run, m);
  }

  lemma RestartLists(c: Config, run: Run, b: nat, i: nat, j: nat)
    requires StopThenStart(c, run, b, i, j)
    ensures Drained(run.states[i]) && run.states[i].mode.Draining?
    ensures ListsInflight(run.states[i].db, run.steps[i + 3].listing)
  {
    StopDrains(c, run, b, i + 1);
    HaltKeepsDb(c, run, i);
    BoundaryKeepsDb(c, run, i + 1);
    BoundaryKeepsDb(c, run, i + 2);
    ListingAt(c, run, i + 3);
  }

  lemma LeftBehind(c: Config, s: State, snap: seq<InflightRow>, t: nat) returns (q: nat)
    requires Inv(c, s) && s.mode.Draining? && Drained(s) && ListsInflight(s.db, snap) && t in s.units
    ensures q < |snap| && TakenUp(c, s.units[t], Unit(snap[q].request, snap[q].retryCount, Queued, true))
  {
    DrainedMeansAbandoned(c, s, t);
    UnitFacts(c, s, t);
    q :| 0 <= q < |snap| && snap[q].key == KeyOf(c, s.units[t]);
  }

  lemma TakenFrom(c: Config, s: State, snap: seq<InflightRow>, q: nat) returns (t: nat)
    requires Inv(c, s) && s.mode.Draining? && Drained(s) && ListsInflight(s.db, snap) && q < |snap|
    ensures t in s.units && TakenUp(c, s.units[t], Unit(snap[q].request, snap[q].retryCount, Queued, true))
  {
    RowsAreAbandoned(c, s, snap[q].key);
    t :| t in s.units && !s.units[t].live && s.units[t].loc == Sleeping && KeyOf(c, s.units[t]) == snap[q].key;
    UnitFacts(c, s, t);
  }

  lemma RestartTakesUp(c: Config, s: State, s': State, snap: seq<InflightRow>)
    requires Inv(c, s) && s.mode.Draining? && Drained(s) && ListsInflight(s.db, snap)
    requires |s'.queue| == |snap| && HoldsSnapshot(s', snap, |snap|)
    ensures forall t :: t in s.units ==> IsTakenUp(c, s.units[t], s')
    ensures forall q: nat :: q < |s'.queue| ==> TakesUp(c, s, s', q)
  {
    forall t | t in s.units
      ensures IsTakenUp(c, s.units[t], s')
    {
      var q := LeftBehind(c, s, snap, t);
      assert TakenUp(c, s.units[t], s'.units[s'.queue[q]]);
    }
    forall q: nat | q < |s'.queue|
      ensures TakesUp(c, s, s', q)
    {
      var t := TakenFrom(c, s, snap, q);
    }
  }

  /**
    Stop and fresh start conserve work: once recovery is over the queue holds, in created_at order, the
    abandoned retries at their attempt numbers, each of them, each once and nothing else.
  */
  lemma WorkSurvivesRestart(c: Config, run: Run, b: nat, i: nat, j: nat)
    requires StopThenStart(c, run, b, i, j)
    ensures
      var s, s', snap := run.states[i], run.states[j], run.steps[i + 3].listing;
      && s'.mode == Running && |s'.queue| == |snap| && HoldsSnapshot(s', snap, |snap|)
      && (forall q, r :: 0 <= q < r < |snap| ==> snap[q].createdAt <= snap[r].createdAt)
      && (forall t :: t in s.units ==> IsTakenUp(c, s.units[t], s'))
      && (forall q: nat :: q < |s'.queue| ==> TakesUp(c, s, s', q))
      && (forall q, r :: 0 <= q < r < |s'.queue| ==>
            && s'.queue[q] in s'.units && s'.queue[r] in s'.units
            && KeyOf(c, s'.units[s'.queue[q]]) != KeyOf(c, s'.units[s'.queue[r]]))
  {
    var s, s', snap := run.states[i], run.states[j], run.steps[i + 3].listing;
    RestartLists(c, run, b, i, j);
    Reachable(c, run, i);
    AloneFits(c, run, i + 3, j);
    RestartTakesUp(c, s, s', snap);
    QueuedKeysDiffer(c, run, j);
  }

  lemma QueuedKeysDiffer(c: Config, run: Run, j: nat)
    requires IsRun(c, run) && j < |run.states|
    ensures
      var s := run.states[j];
      forall q, r :: 0 <= q < r < |s.queue| ==>
        && s.queue[q] in s.units && s.queue[r] in s.units
        && KeyOf(c, s.units[s.queue[q]]) != KeyOf(c, s.units[s.queue[r]])
  {
    Reachable(c, run, j);
    SingleCarrier(c, run, j);
  }

  // ----- stop, then a start among callers

  /** No client is up yet: down, or in a start that has not returned. */
  predicate BetweenLives(mode: Mode) { mode == Down || mode == Opening || mode.Starting? }

  predicate BetweenLivesAt(run: Run, m: nat) {
    m < |run.states| && m < |run.steps| && BetweenLives(run.states[m].mode)
  }

  predicate BetweenLivesFrom(run: Run, i: nat, j: nat)
    decreases j
  {
    i < j ==> BetweenLivesAt(run, j - 1) && BetweenLivesFrom(run, i, j - 1)
  }

  /** Somebody submitted the request of `key` in steps `i`, .., `j - 1`. */
  ghost predicate Submitted(c: Config, run: Run, i: nat, j: nat, key: Key) {
    exists m :: i <= m < j && m < |run.steps| && run.steps[m].Submit?
      && IdempotencyKey(c.digest, run.steps[m].req) == key
  }

  /** The row of `key` is there, at `count`, and nobody is about to reset it. */
  ghost predicate RowRests(c: Config, s: State, key: Key, count: nat) {
    && key in s.db.rows && s.db.rows[key].retryCount == count
    && forall t :: t in s.units && KeyOf(c, s.units[t]) == key ==> s.units[t].loc != Registered
  }

  lemma RowUntouched(c: Config, s: State, step: Step, key: Key)
    requires Enabled(c, s, step) && key in s.db.rows && BetweenLives(s.mode)
    requires OnUnit(step) && step.t in s.units ==> BeforeWorkers(s.units[step.t].loc)
    ensures key in Apply(c, s, step).db.rows
    ensures Apply(c, s, step).db.rows[key].retryCount == s.db.rows[key].retryCount
         || (step.Upsert? && KeyOf(c, s.units[step.t]) == key && s.units[step.t].loc == Registered)
  {
  }

  lemma EarlyUnits(c: Config, s: State, step: Step)
    requires Inv(c, s) && BetweenLives(s.mode) && Enabled(c, s, step)
    ensures OnUnit(step) && step.t in s.units ==> BeforeWorkers(s.units[step.t].loc)
  {
    if OnUnit(step) && step.t in s.units {
      UnitFacts(c, s, step.t);
    }
  }

  lemma OwnersStay(c: Config, s: State, step: Step, key: Key, t: nat)
    requires Enabled(c, s, step) && (step.Submit? ==> IdempotencyKey(c.digest, step.req) != key)
    requires t in Apply(c, s, step).units && KeyOf(c, Apply(c, s, step).units[t]) == key
    requires Apply(c, s, step).units[t].loc == Registered
    ensures t in s.units && KeyOf(c, s.units[t]) == key && s.units[t].loc == Registered
  {
    if OnUnit(step) {
      OwnerStays(c, s, step, t);
    } else {
      OwnerAppears(c, s, step, t);
    }
  }

  lemma RowRestsNext(c: Config, run: Run, m: nat, key: Key, count: nat)
    requires IsRun(c, run) && BetweenLivesAt(run, m) && RowRests(c, run.states[m], key, count)
    requires run.steps[m].Submit? ==> IdempotencyKey(c.digest, run.steps[m].req) != key
    ensures RowRests(c, run.states[m + 1], key, count)
  {
    var s, step, s' := run.states[m], run.steps[m], run.states[m + 1];
    Reachable(c, run, m);
    assert StepAt(c, run, m);
    EarlyUnits(c, s, step);
    RowUntouched(c, s, step, key);
    forall t | t in s'.units && KeyOf(c, s'.units[t]) == key
      ensures s'.units[t].loc != Registered
    {
      if s'.units[t].loc == Registered {
        OwnersStay(c, s, step, key, t);
      }
    }
  }

  lemma RowKept(c: Config, run: Run, m: nat, key: Key)
    requires IsRun(c, run) && BetweenLivesAt(run, m) && key in run.states[m].db.rows
    ensures key in run.states[m + 1].db.rows
  {
    Reachable(c, run, m);
    assert StepAt(c, run, m);
    EarlyUnits(c, run.states[m], run.steps[m]);
    RowUntouched(c, run.states[m], run.steps[m], key);
  }

  lemma {:induction false} RowWaits(c: Config, run: Run, i: nat, j: nat, key: Key, count: nat)
    requires IsRun(c, run) && i <= j < |run.states| && BetweenLivesFrom(run, i, j)
    requires RowRests(c, run.states[i], key, count)
    ensures key in run.states[j].db.rows
    ensures Submitted(c, run, i, j, key) || RowRests(c, run.states[j], key, count)
    decreases j
  {
    if i == j {
    } else {
      RowWaits(c, run, i, j - 1, key, count);
      RowKept(c, run, j - 1, key);
      if Submitted(c, run, i, j - 1, key) {
        SubmittedStill(c, run, i, j, key);
      } else if run.steps[j - 1].Submit? && IdempotencyKey(c.digest, run.steps[j - 1].req) == key {
        assert Submitted(c, run, i, j, key);
      } else {
        RowRestsNext(c, run, j - 1, key, count);
      }
    }
  }

  lemma SubmittedStill(c: Config, run: Run, i: nat, j: nat, key: Key)
    requires 0 < j && Submitted(c, run, i, j - 1, key)
    ensures Submitted(c, run, i, j, key)
  {
  }

  /** A client that is running carries every row. */
  lemma RowCarried(c: Config, s: State, key: Key)
    requires Inv(c, s) && s.mode == Running && key in s.db.rows
    ensures key in s.reg.inflight && LiveAt(s, s.reg.inflight[key]) && KeyOf(c, s.units[s.reg.inflight[key]]) == key
  {
    KeyFacts(c, s, key);
    UnitFacts(c, s, s.reg.inflight[key]);
  }

  lemma RestCount(c: Config, s: State, t: nat, count: nat)
    requires Inv(c, s) && t in s.units && RowRests(c, s, KeyOf(c, s.units[t]), count)
    requires BeforeWorkers(s.units[t].loc)
    ensures s.units[t].attempt == count
  {
    UnitFacts(c, s, t);
  }

  lemma ReturnedAt(c: Config, run: Run, j: nat)
    requires IsRun(c, run) && 0 < j < |run.states| && BetweenLivesAt(run, j - 1) && run.states[j].mode == Running
    ensures run.states[j - 1].mode.Starting? && run.states[j].units == run.states[j - 1].units
  {
    assert StepAt(c, run, j - 1);
    Returned(c, run.states[j - 1], run.steps[j - 1]);
  }

  lemma NoneHandled(c: Config, run: Run, j: nat, t: nat)
    requires IsRun(c, run) && 0 < j < |run.states| && BetweenLivesAt(run, j - 1)
    requires run.states[j].mode == Running && t in run.states[j].units
    ensures BeforeWorkers(run.states[j].units[t].loc)
  {
    ReturnedAt(c, run, j);
    Reachable(c, run, j - 1);
    NoneAtWorker(c, run.states[j - 1], t);
  }

  lemma Returned(c: Config, s: State, step: Step)
    requires BetweenLives(s.mode) && Enabled(c, s, step) && Apply(c, s, step).mode == Running
    ensures s.mode.Starting? && Apply(c, s, step).units == s.units
  {
  }

  lemma AbandonedRests(c: Config, run: Run, i: nat, t: nat)
    requires IsRun(c, run) && i + 1 < |run.steps| && run.steps[i] == DrainCheck && Drained(run.states[i])
    requires run.steps[i + 1] == Close && t in run.states[i].units
    ensures RowRests(c, run.states[i + 2], KeyOf(c, run.states[i].units[t]), run.states[i].units[t].attempt)
  {
    Reachable(c, run, i);
    HaltKeepsDb(c, run, i);
    assert StepAt(c, run, i + 1);
    DrainedMeansAbandoned(c, run.states[i], t);
    UnitFacts(c, run.states[i], t);
  }

  /** `stop` is called at `b` while nobody submits and halts with the check at `i`; a later start returns at `j`. */
  ghost predicate StopThenStarts(c: Config, run: Run, b: nat, i: nat, j: nat) {
    && StopUpTo(c, run, b, i + 1) && NoSubmission(run.states[b]) && run.states[i + 1].mode == Halted
    && ExactDrains(run) && c.workers > 0 && c.maxSize > 0
    && i + 2 < j < |run.states| && run.steps[i + 1] == Close
    && BetweenLivesFrom(run, i + 2, j) && run.states[j].mode == Running
  }

  /**
    No retry that a stop abandoned is lost, whatever callers submit during the starts after it and however
    many of those crash: when a start returns, exactly one live unit carries the key, at the attempt number
    that was saved unless somebody submitted that very request meanwhile.
  */
  lemma WorkSurvivesCallers(c: Config, run: Run, b: nat, i: nat, j: nat, t: nat)
    requires StopThenStarts(c, run, b, i, j) && t in run.states[i].units
    ensures
      var u, s' := run.states[i].units[t], run.states[j];
      && KeyOf(c, u) in s'.reg.inflight
      && var t' := s'.reg.inflight[KeyOf(c, u)];
      && LiveAt(s', t') && KeyOf(c, s'.units[t']) == KeyOf(c, u)
      && (s'.units[t'].attempt == u.attempt || Submitted(c, run, i + 2, j, KeyOf(c, u)))
  {
    var u, s' := run.states[i].units[t], run.states[j];
    StopDrains(c, run, b, i + 1);
    AbandonedRests(c, run, i, t);
    RowWaits(c, run, i + 2, j, KeyOf(c, u), u.attempt);
    Reachable(c, run, j);
    RowCarried(c, s', KeyOf(c, u));
    if !Submitted(c, run, i + 2, j, KeyOf(c, u)) {
      NoneHandled(c, run, j, s'.reg.inflight[KeyOf(c, u)]);
      RestCount(c, s', s'.reg.inflight[KeyOf(c, u)], u.attempt);
    }
  }
}
