/** Nothing is invented or altered: where requests, rows and dead letters come from, over every run. */
module Provenance {
  import opened Models
  import opened Storage
  import opened Dedup
  import opened Lifecycle
  import opened Invariant
  import opened Runs
  import opened Executions

  // ----- one step

  /** The request of unit `t` is the one it had, the one submitted, or the one of the row recovery has reached. */
  ghost predicate RequestFrom(s: State, step: Step, s': State, t: nat) {
    t in s'.units ==>
      || (t in s.units && s'.units[t].req == s.units[t].req)
      || (step.Submit? && s'.units[t].req == step.req)
      || (step.RecoverNext? && s.mode.Starting? && s.mode.remaining != []
          && s'.units[t].req == s.mode.remaining[0].request)
  }

  lemma MoveRequest(c: Config, s: State, step: Step, t: nat)
    requires Enabled(c, s, step) && OnUnit(step) && !IsTouch(c, s, step)
    ensures RequestFrom(s, step, Apply(c, s, step), t)
  {
  }

  lemma OwnerRequest(c: Config, s: State, step: Step, t: nat)
    requires Enabled(c, s, step) && (step.Submit? || step.RecoverNext?)
    ensures RequestFrom(s, step, Apply(c, s, step), t)
  {
  }

  lemma OtherRequest(c: Config, s: State, step: Step, t: nat)
    requires Enabled(c, s, step) && !OnUnit(step) && !step.Submit? && !step.RecoverNext?
    ensures RequestFrom(s, step, Apply(c, s, step), t)
  {
  }

  lemma RequestKept(c: Config, s: State, step: Step, t: nat)
    requires Enabled(c, s, step)
    ensures RequestFrom(s, step, Apply(c, s, step), t)
  {
    if IsTouch(c, s, step) {
      TouchFrame(c, s, step);
    } else if OnUnit(step) {
      MoveRequest(c, s, step, t);
    } else if step.Submit? || step.RecoverNext? {
      OwnerRequest(c, s, step, t);
    } else {
      OtherRequest(c, s, step, t);
    }
  }

  /** An upsert that inserts the row of `key`, which then restores to the request of the unit and to no other. */
  ghost predicate Inserts(c: Config, s: State, step: Step, key: Key, row: Row) {
    && step.Upsert? && step.t in s.units && s.units[step.t].loc == Registered && KeyOf(c, s.units[step.t]) == key
    && key !in s.db.rows && row.createdAt == step.now && row.retryCount == 0
    && forall r :: Restores(row.payload, r) <==> r == s.units[step.t].req
  }

  /** The row of `key` keeps its payload and its time, unless it has just been inserted. */
  ghost predicate RowFrom(c: Config, s: State, step: Step, s': State, key: Key) {
    key in s'.db.rows ==>
      || (key in s.db.rows && s'.db.rows[key].payload == s.db.rows[key].payload
          && s'.db.rows[key].createdAt == s.db.rows[key].createdAt)
      || Inserts(c, s, step, key, s'.db.rows[key])
  }

  lemma UpsertRow(c: Config, s: State, t: nat, now: real, key: Key)
    requires Enabled(c, s, Upsert(t, now))
    ensures RowFrom(c, s, Upsert(t, now), Apply(c, s, Upsert(t, now)), key)
  {
    forall r ensures Restores(ToStorage(s.units[t].req), r) <==> r == s.units[t].req {
      StoredRestores(s.units[t].req, r);
    }
  }

  lemma WorkRow(c: Config, s: State, step: Step, key: Key)
    requires Enabled(c, s, step) && IsWork(step)
    ensures RowFrom(c, s, step, Apply(c, s, step), key)
  {
  }

  lemma OtherRow(c: Config, s: State, step: Step, key: Key)
    requires Enabled(c, s, step) && OnUnit(step) && !step.Upsert? && !IsWork(step)
    ensures RowFrom(c, s, step, Apply(c, s, step), key)
  {
  }

  lemma RowKeptOrInserted(c: Config, s: State, step: Step, key: Key)
    requires Enabled(c, s, step)
    ensures RowFrom(c, s, step, Apply(c, s, step), key)
  {
    if step.Upsert? {
      UpsertRow(c, s, step.t, step.now, key);
    } else if IsWork(step) {
      WorkRow(c, s, step, key);
    } else if OnUnit(step) {
      OtherRow(c, s, step, key);
    } else {
      RowsOutside(c, s, step);
    }
  }

  /** The snapshot the recovery loop walks is what it was, without the row it has reached, or just read. */
  lemma SnapshotFrom(c: Config, s: State, step: Step)
    requires Enabled(c, s, step)
    ensures
      var rows, rows' := Remaining(s.mode), Remaining(Apply(c, s, step).mode);
      || rows' == rows || (rows != [] && rows' == rows[1..]) || rows' == []
      || (step.List? && rows' == step.listing && ListsInflight(s.db, rows'))
  {
  }

  // ----- requests

  /** All requests in memory and in the table are among `known`. */
  ghost predicate Sourced(s: State, known: iset<Request>) {
    && (forall t :: t in s.units ==> s.units[t].req in known)
    && (forall key, r :: key in s.db.rows && Restores(s.db.rows[key].payload, r) ==> r in known)
    && (forall i :: 0 <= i < |Remaining(s.mode)| ==> Remaining(s.mode)[i].request in known)
  }

  lemma SourcedStep(c: Config, s: State, step: Step, known: iset<Request>)
    requires Sourced(s, known) && Enabled(c, s, step)
    ensures Sourced(Apply(c, s, step), known + if step.Submit? then iset{step.req} else iset{})
  {
    var s' := Apply(c, s, step);
    forall t | t in s'.units
      ensures s'.units[t].req in known || (step.Submit? && s'.units[t].req == step.req)
    {
      RequestKept(c, s, step, t);
      if step.RecoverNext? {
        assert Remaining(s.mode)[0].request in known;
      }
    }
    forall key, r | key in s'.db.rows && Restores(s'.db.rows[key].payload, r)
      ensures r in known
    {
      RowKeptOrInserted(c, s, step, key);
    }
    SnapshotFrom(c, s, step);
  }

  ghost predicate FoundAtStart(run: Run, req: Request)
    requires 0 < |run.states|
  {
    exists key :: key in run.states[0].db.rows && Restores(run.states[0].db.rows[key].payload, req)
  }

  ghost predicate SubmittedBefore(run: Run, j: nat, req: Request)
    requires j <= |run.steps|
  {
    exists m :: 0 <= m < j && run.steps[m] == Submit(req)
  }

  /** The requests submitted before `j`, and those that rows of an earlier life restore to. */
  ghost function Known(run: Run, j: nat): iset<Request>
    requires 0 < |run.states| && j <= |run.steps|
  {
    iset r | FoundAtStart(run, r) || SubmittedBefore(run, j, r)
  }

  lemma KnownNext(run: Run, j: nat)
    requires 0 < |run.states| && j < |run.steps|
    ensures Known(run, j + 1) == Known(run, j) + if run.steps[j].Submit? then iset{run.steps[j].req} else iset{}
  {
    forall r | r in Known(run, j)
      ensures r in Known(run, j + 1)
    {
    }
  }

  lemma {:induction false} AllSourced(c: Config, run: Run, j: nat)
    requires IsRun(c, run) && j < |run.states|
    ensures Sourced(run.states[j], Known(run, j))
  {
    if j == 0 {
    } else {
      AllSourced(c, run, j - 1);
      assert StepAt(c, run, j - 1);
      SourcedStep(c, run.states[j - 1], run.steps[j - 1], Known(run, j - 1));
      KnownNext(run, j - 1);
    }
  }

  /**
    Whatever is sent is exactly what was submitted, headers and all, through any number of crashes and
    recoveries: in this run, or before it by the client whose rows the run found.
  */
  lemma SentAsSubmitted(c: Config, run: Run, j: nat)
    requires IsRun(c, run) && j < |run.steps| && run.steps[j].Execute?
    ensures run.steps[j].t in run.states[j].units && run.states[j].units[run.steps[j].t].req in Known(run, j)
  {
    assert StepAt(c, run, j);
    AllSourced(c, run, j);
  }

  // ----- rows

  /** A unit that has yet to persist its request is that of a submission. */
  lemma {:induction false} OwnersSubmitted(c: Config, run: Run, j: nat, t: nat)
    requires IsRun(c, run) && j < |run.states| && t in run.states[j].units && run.states[j].units[t].loc == Registered
    ensures exists m :: 0 <= m < j && run.steps[m] == Submit(run.states[j].units[t].req)
  {
    if j == 0 {
    } else {
      assert StepAt(c, run, j - 1);
      OwnerBefore(c, run.states[j - 1], run.steps[j - 1], t);
      if run.steps[j - 1] != Submit(run.states[j].units[t].req) {
        OwnersSubmitted(c, run, j - 1, t);
      }
    }
  }

  lemma OwnerBefore(c: Config, s: State, step: Step, t: nat)
    requires Enabled(c, s, step) && t in Apply(c, s, step).units && Apply(c, s, step).units[t].loc == Registered
    ensures
      || step == Submit(Apply(c, s, step).units[t].req)
      || (t in s.units && s.units[t].loc == Registered && s.units[t].req == Apply(c, s, step).units[t].req)
  {
    if OnUnit(step) {
      OwnerStays(c, s, step, t);
    } else {
      OwnerAppears(c, s, step, t);
    }
  }

  /** Step `k` inserted `row` for `key`, with the request of a submission before it. */
  ghost predicate InsertedAt(c: Config, run: Run, k: nat, key: Key, row: Row) {
    && k < |run.steps| && k < |run.states| && run.steps[k].Upsert? && run.steps[k].t in run.states[k].units
    && var req := run.states[k].units[run.steps[k].t].req;
    && IdempotencyKey(c.digest, req) == key && key !in run.states[k].db.rows && row.createdAt == run.steps[k].now
    && (forall r :: Restores(row.payload, r) <==> r == req)
    && exists m :: 0 <= m < k && run.steps[m] == Submit(req)
  }

  /** The row was there when the run began, and not deleted since. */
  ghost predicate SinceStart(run: Run, j: nat, key: Key, row: Row)
    requires j < |run.states|
  {
    && RowThrough(run, 0, j, key) && key in run.states[0].db.rows
    && row.payload == run.states[0].db.rows[key].payload && row.createdAt == run.states[0].db.rows[key].createdAt
  }

  /** The row was inserted by an upsert of this run, and not deleted since. */
  ghost predicate SinceInsert(c: Config, run: Run, j: nat, key: Key, row: Row)
    requires j < |run.states|
  {
    exists k: nat :: k < j && RowThrough(run, k + 1, j, key) && InsertedAt(c, run, k, key, row)
  }

  ghost predicate HasOrigin(c: Config, run: Run, j: nat, key: Key)
    requires j < |run.states| && key in run.states[j].db.rows
  {
    var row := run.states[j].db.rows[key];
    SinceStart(run, j, key, row) || SinceInsert(c, run, j, key, row)
  }

  lemma InsertedNow(c: Config, run: Run, k: nat, key: Key)
    requires IsRun(c, run) && k < |run.steps| && key in run.states[k + 1].db.rows
    requires Inserts(c, run.states[k], run.steps[k], key, run.states[k + 1].db.rows[key])
    ensures InsertedAt(c, run, k, key, run.states[k + 1].db.rows[key])
  {
    OwnersSubmitted(c, run, k, run.steps[k].t);
  }

  predicate SameRecord(row: Row, row': Row) { row'.payload == row.payload && row'.createdAt == row.createdAt }

  lemma ThroughNext(run: Run, i: nat, j: nat, key: Key)
    requires 0 < j < |run.states| && RowThrough(run, i, j - 1, key) && key in run.states[j].db.rows
    ensures RowThrough(run, i, j, key)
  {
  }

  lemma StartKept(run: Run, j: nat, key: Key, row: Row, row': Row)
    requires 0 < j < |run.states| && key in run.states[j].db.rows
    requires SinceStart(run, j - 1, key, row) && SameRecord(row, row')
    ensures SinceStart(run, j, key, row')
  {
    ThroughNext(run, 0, j, key);
  }

  lemma InsertKept(c: Config, run: Run, j: nat, key: Key, row: Row, row': Row)
    requires 0 < j < |run.states| && key in run.states[j].db.rows
    requires SinceInsert(c, run, j - 1, key, row) && SameRecord(row, row')
    ensures SinceInsert(c, run, j, key, row')
  {
    var k: nat :| k < j - 1 && RowThrough(run, k + 1, j - 1, key) && InsertedAt(c, run, k, key, row);
    ThroughNext(run, k + 1, j, key);
    assert InsertedAt(c, run, k, key, row');
  }

  lemma OriginKept(c: Config, run: Run, j: nat, key: Key)
    requires 0 < j < |run.states| && key in run.states[j - 1].db.rows && key in run.states[j].db.rows
    requires HasOrigin(c, run, j - 1, key) && SameRecord(run.states[j - 1].db.rows[key], run.states[j].db.rows[key])
    ensures HasOrigin(c, run, j, key)
  {
    var row, row' := run.states[j - 1].db.rows[key], run.states[j].db.rows[key];
    if SinceStart(run, j - 1, key, row) {
      StartKept(run, j, key, row, row');
    } else {
      InsertKept(c, run, j, key, row, row');
    }
  }

  /**
    Every row has its origin: it restores to the request of the submission whose upsert inserted it, at the
    time of that upsert, whatever conflicts, retries, crashes and recoveries came since.
  */
  lemma {:induction false} RowsHaveOrigin(c: Config, run: Run, j: nat, key: Key)
    requires IsRun(c, run) && j < |run.states| && key in run.states[j].db.rows
    ensures HasOrigin(c, run, j, key)
  {
    if j == 0 {
      assert RowThrough(run, 0, 0, key);
    } else {
      RowKeptAt(c, run, j - 1, key);
      if Inserts(c, run.states[j - 1], run.steps[j - 1], key, run.states[j].db.rows[key]) {
        InsertedNow(c, run, j - 1, key);
        assert RowThrough(run, (j - 1) + 1, j, key);
      } else {
        RowsHaveOrigin(c, run, j - 1, key);
        OriginKept(c, run, j, key);
      }
    }
  }

  lemma RowKeptAt(c: Config, run: Run, m: nat, key: Key)
    requires IsRun(c, run) && m < |run.steps|
    ensures RowFrom(c, run.states[m], run.steps[m], run.states[m + 1], key)
  {
    assert StepAt(c, run, m);
    RowKeptOrInserted(c, run.states[m], run.steps[m], key);
  }

  // ----- dead letters

  /** A DLQ row that says what unit `t` was: its key and request, its error, and its attempt number. */
  ghost predicate TellsOf(c: Config, s: State, t: nat, row: DeadRow) {
    && t in s.units && row.key == KeyOf(c, s.units[t]) && s.units[t].loc == DeadNoted(row.error)
    && row.retryCount == s.units[t].attempt && forall r :: Restores(row.payload, r) <==> r == s.units[t].req
  }

  lemma {:induction false} WithoutIsPart(dead: seq<DeadRow>, id: nat, row: DeadRow)
    requires row in WithoutId(dead, id)
    ensures row in dead
  {
    if dead == [] {
    } else if row in WithoutId(dead[1..], id) {
      WithoutIsPart(dead[1..], id, row);
    }
  }

  lemma PushTells(c: Config, s: State, t: nat, row: DeadRow)
    requires Enabled(c, s, PushDead(t)) && row in Apply(c, s, PushDead(t)).db.dead
    ensures row in s.db.dead || TellsOf(c, s, t, row)
  {
    forall r ensures Restores(ToStorage(s.units[t].req), r) <==> r == s.units[t].req {
      StoredRestores(s.units[t].req, r);
    }
  }

  lemma DeadUntouched(c: Config, s: State, step: Step)
    requires Enabled(c, s, step) && !step.PushDead? && !step.RemoveDead?
    ensures Apply(c, s, step).db.dead == s.db.dead
  {
  }

  /** Every dead letter tells of the unit whose worker pushed it. */
  lemma {:induction false} DeadLettersTell(c: Config, run: Run, j: nat, row: DeadRow)
    requires IsRun(c, run) && j < |run.states| && row in run.states[j].db.dead
    ensures row in run.states[0].db.dead
         || exists m :: 0 <= m < j && run.steps[m].PushDead? && TellsOf(c, run.states[m], run.steps[m].t, row)
  {
    if j == 0 {
    } else {
      var s, step := run.states[j - 1], run.steps[j - 1];
      assert StepAt(c, run, j - 1);
      if step.PushDead? {
        PushTells(c, s, step.t, row);
      } else if step.RemoveDead? {
        WithoutIsPart(s.db.dead, step.id, row);
      } else {
        DeadUntouched(c, s, step);
      }
      if row in s.db.dead {
        DeadLettersTell(c, run, j - 1, row);
      }
    }
  }
}
