/** Safety over whole runs: what the invariant and the steps say about every history. */
module Runs {
  import opened Models
  import opened Dedup
  import opened Lifecycle
  import opened Invariant

  datatype Run = Run(states: seq<State>, steps: seq<Step>)

  /** A database left by an earlier life of the client, and no process. */
  ghost predicate Boot(c: Config, s: State) {
    s == Wiped(s) && Agreement(c, s.db, map[])
  }

  ghost predicate StepAt(c: Config, run: Run, i: nat) {
    && i < |run.steps| && i + 1 < |run.states|
    && Enabled(c, run.states[i], run.steps[i])
    && run.states[i + 1] == Apply(c, run.states[i], run.steps[i])
  }

  ghost predicate IsRun(c: Config, run: Run) {
    && |run.states| == |run.steps| + 1
    && Boot(c, run.states[0])
    && forall i: nat :: i < |run.steps| ==> StepAt(c, run, i)
  }

  /** The invariant holds in every state of every run. */
  lemma {:induction false} Reachable(c: Config, run: Run, i: nat)
    requires IsRun(c, run) && i < |run.states|
    ensures Inv(c, run.states[i])
  {
    if i == 0 {
      FirstInv(c, run, i);
    } else {
      Reachable(c, run, i - 1);
      PreservedAt(c, run, i);
    }
  }

  lemma PreservedAt(c: Config, run: Run, i: nat)
    requires IsRun(c, run) && 0 < i < |run.states| && Inv(c, run.states[i - 1])
    ensures Inv(c, run.states[i])
  {
    assert StepAt(c, run, i - 1);
    Preserved(c, run.states[i - 1], run.steps[i - 1]);
  }

  lemma FirstInv(c: Config, run: Run, i: nat)
    requires IsRun(c, run) && i == 0
    ensures Inv(c, run.states[i])
  {
    BootInv(c, run.states[i]);
  }

  lemma BootInv(c: Config, s: State)
    requires Boot(c, s)
    ensures Inv(c, s)
  {
  }

  /**
    The runs leave nothing out that is up to others: callers may submit, and the process may crash, whenever
    there is one; the breaker may let a request through or not; and the answer may be any.
  */
  lemma EnvironmentIsFree(c: Config, s: State, t: nat, req: Request, outcome: Outcome)
    ensures s.mode != Down ==> Enabled(c, s, Submit(req)) && Enabled(c, s, Crash)
    ensures LiveAt(s, t) && s.units[t].loc == Handling ==> Enabled(c, s, Reject(t)) && Enabled(c, s, Execute(t))
    ensures LiveAt(s, t) && s.units[t].loc == Executing ==> Enabled(c, s, Reply(t, outcome))
  {
  }

  /** Whether whoever carries unit `t` is a worker at this moment. */
  predicate WorkedOn(s: State, t: nat) { t in s.units && Busy(s.units[t]) }

  /**
    One carrier per key, in every reachable state: two units with the same key are the same unit, so no
    key is executed by two workers at once; a key is pending exactly when it has a unit; and a unit
    without a carrier exists only after `stop` was called.
  */
  lemma SingleCarrier(c: Config, run: Run, i: nat)
    requires IsRun(c, run) && i < |run.states|
    ensures
      var s := run.states[i];
      && (forall t, t' :: t in s.units && t' in s.units && KeyOf(c, s.units[t]) == KeyOf(c, s.units[t']) ==> t == t')
      && (forall key :: IsPending(s.reg, key) <==> exists t :: t in s.units && KeyOf(c, s.units[t]) == key)
      && (forall t :: t in s.units && !s.units[t].live ==> Stopping(s))
      && (forall t :: WorkedOn(s, t) ==> t in s.busy)
      && |s.busy| <= c.workers && |s.queue| <= c.maxSize
  {
    var s := run.states[i];
    Reachable(c, run, i);
    forall t, t' | t in s.units && t' in s.units && KeyOf(c, s.units[t]) == KeyOf(c, s.units[t'])
      ensures t == t'
    {
      UnitFacts(c, s, t);
      UnitFacts(c, s, t');
    }
  }

  /**
    Durable and in-memory retry counts agree: the row of a unit past its upsert and before its delete
    carries the unit's attempt number, one more between the increment and the reschedule; and no count
    exceeds `max_retries` over any number of restarts.
  */
  lemma CountsAgree(c: Config, run: Run, i: nat)
    requires IsRun(c, run) && i < |run.states|
    ensures
      var s := run.states[i];
      && (forall t :: t in s.units && HoldsRow(s.units[t].loc) ==>
            && KeyOf(c, s.units[t]) in s.db.rows
            && s.db.rows[KeyOf(c, s.units[t])].retryCount
               == s.units[t].attempt + if s.units[t].loc == RetryWritten then 1 else 0)
      && (forall key :: key in s.db.rows ==> s.db.rows[key].retryCount <= c.maxRetries)
  {
    Reachable(c, run, i);
    CountsInState(c, run.states[i]);
  }

  /** The ON CONFLICT reset never hits the row of another unit, carried or abandoned. */
  lemma UpsertMeetsNoCarrier(c: Config, run: Run, i: nat, t: nat)
    requires IsRun(c, run) && i < |run.steps| && run.steps[i].Upsert?
    requires t in run.states[i].units && t != run.steps[i].t
    ensures run.steps[i].t in run.states[i].units
    ensures KeyOf(c, run.states[i].units[t]) != KeyOf(c, run.states[i].units[run.steps[i].t])
  {
    assert StepAt(c, run, i);
    SingleCarrier(c, run, i);
  }

  lemma CountsInState(c: Config, s: State)
    requires Inv(c, s)
    ensures forall t :: t in s.units && HoldsRow(s.units[t].loc) ==>
      KeyOf(c, s.units[t]) in s.db.rows && s.db.rows[KeyOf(c, s.units[t])].retryCount == SavedCount(s.units[t])
    ensures forall key :: key in s.db.rows ==> s.db.rows[key].retryCount <= c.maxRetries
  {
    forall key | key in s.db.rows
      ensures s.db.rows[key].retryCount <= c.maxRetries
    {
      assert RowGood(c, key, s.db.rows[key]);
    }
  }

  // ----- no accepted request is lost

  /** Step `m` received an HTTP success for `key` or pushed its DLQ row. */
  ghost predicate Decides(c: Config, run: Run, m: nat, key: Key)
    requires IsRun(c, run) && m < |run.steps|
  {
    var step := run.steps[m];
    && StepAt(c, run, m)
    && ((step.Reply? && step.outcome.Success?) || step.PushDead?)
    && KeyOf(c, run.states[m].units[step.t]) == key
  }

  ghost predicate RowThrough(run: Run, i: nat, j: nat, key: Key)
    requires j < |run.states|
  {
    forall n :: i <= n <= j ==> key in run.states[n].db.rows
  }

  /** Within the lifetime of the row that exists at `j`, its outcome was received. */
  ghost predicate Witnessed(c: Config, run: Run, j: nat, key: Key)
    requires IsRun(c, run) && j < |run.states|
  {
    exists m :: 0 <= m < j && Decides(c, run, m, key) && RowThrough(run, m, j, key)
  }

  predicate Decided(loc: Loc) { loc.SuccessNoted? || loc.DeadPushed? }

  /** Unit `t` is decided after `step` because it was before, or because this step decides it. */
  ghost predicate BecomesDecided(s: State, step: Step, s': State, t: nat) {
    t in s'.units && Decided(s'.units[t].loc) ==>
      && t in s.units && s.units[t].req == s'.units[t].req
      && (|| Decided(s.units[t].loc)
          || (step == PushDead(t) && s.units[t].loc.DeadNoted?)
          || (step.Reply? && step.t == t && step.outcome.Success? && s.units[t].loc == Executing))
  }

  lemma WorkDecides(c: Config, s: State, step: Step, t: nat)
    requires Enabled(c, s, step) && IsWork(step)
    ensures BecomesDecided(s, step, Apply(c, s, step), t)
  {
  }

  lemma VerdictDecides(c: Config, s: State, step: Step, t: nat)
    requires Enabled(c, s, step) && IsVerdict(step)
    ensures BecomesDecided(s, step, Apply(c, s, step), t)
  {
  }

  lemma OwnerDecidesNot(c: Config, s: State, step: Step, t: nat)
    requires Enabled(c, s, step) && IsTouch(c, s, step) && !IsWork(step) && !IsVerdict(step)
    ensures BecomesDecided(s, step, Apply(c, s, step), t)
  {
  }

  lemma MoveDecidesNot(c: Config, s: State, step: Step, t: nat)
    requires Enabled(c, s, step) && OnUnit(step) && !IsTouch(c, s, step)
    ensures BecomesDecided(s, step, Apply(c, s, step), t)
  {
  }

  /** A unit becomes decided by an HTTP success or a DLQ push alone, and never changes its request. */
  lemma DecidedBy(c: Config, s: State, step: Step, t: nat)
    requires Enabled(c, s, step) && OnUnit(step)
    ensures BecomesDecided(s, step, Apply(c, s, step), t)
  {
    if IsWork(step) {
      WorkDecides(c, s, step, t);
    } else if IsVerdict(step) {
      VerdictDecides(c, s, step, t);
    } else if IsTouch(c, s, step) {
      OwnerDecidesNot(c, s, step, t);
    } else {
      MoveDecidesNot(c, s, step, t);
    }
  }

  predicate HasOutcome(loc: Loc) { Decided(loc) || loc == Executing || loc.DeadNoted? }

  /** The row is there while the outcome is awaited and until it is recorded. */
  lemma RowHeld(c: Config, run: Run, j: nat, t: nat)
    requires IsRun(c, run) && j < |run.states|
    requires t in run.states[j].units && HasOutcome(run.states[j].units[t].loc)
    ensures KeyOf(c, run.states[j].units[t]) in run.states[j].db.rows && j > 0
  {
    Reachable(c, run, j);
    UnitFacts(c, run.states[j], t);
  }

  lemma DecidedAt(c: Config, run: Run, j: nat, t: nat)
    requires IsRun(c, run) && 0 < j < |run.states|
    requires t in run.states[j].units && Decided(run.states[j].units[t].loc)
    ensures t in run.states[j - 1].units
    ensures KeyOf(c, run.states[j - 1].units[t]) == KeyOf(c, run.states[j].units[t])
    ensures HasOutcome(run.states[j - 1].units[t].loc)
    ensures Decided(run.states[j - 1].units[t].loc) || Decides(c, run, j - 1, KeyOf(c, run.states[j].units[t]))
  {
    assert StepAt(c, run, j - 1);
    if OnUnit(run.steps[j - 1]) {
      DecidedBy(c, run.states[j - 1], run.steps[j - 1], t);
    } else {
      OutsideCarries(c, run.states[j - 1], run.steps[j - 1], t);
    }
  }

  lemma {:induction false} DecidedWitnessed(c: Config, run: Run, j: nat, t: nat)
    requires IsRun(c, run) && j < |run.states|
    requires t in run.states[j].units && Decided(run.states[j].units[t].loc)
    ensures Witnessed(c, run, j, KeyOf(c, run.states[j].units[t]))
  {
    var key := KeyOf(c, run.states[j].units[t]);
    RowHeld(c, run, j, t);
    DecidedAt(c, run, j, t);
    RowHeld(c, run, j - 1, t);
    if Decided(run.states[j - 1].units[t].loc) {
      DecidedWitnessed(c, run, j - 1, t);
      var m :| 0 <= m < j - 1 && Decides(c, run, m, key) && RowThrough(run, m, j - 1, key);
      assert RowThrough(run, m, j, key);
    } else {
      assert RowThrough(run, j - 1, j, key);
    }
  }

  /** Only `delete_inflight` removes a row, and only that of a decided unit. */
  lemma RowStays(c: Config, s: State, step: Step, key: Key)
    requires Enabled(c, s, step) && key in s.db.rows && key !in Apply(c, s, step).db.rows
    ensures step.EraseRow? && KeyOf(c, s.units[step.t]) == key && Decided(s.units[step.t].loc)
  {
  }

  /**
    No accepted request is lost: a row that disappears between two states of a run, whatever submits,
    retries, stops, crashes and restarts lie in between, did so after an HTTP success or a DLQ push for
    its key within the same row lifetime.
  */
  lemma {:induction false} NoLoss(c: Config, run: Run, i: nat, j: nat, key: Key)
    requires IsRun(c, run) && i < j < |run.states|
    requires key in run.states[i].db.rows && key !in run.states[j].db.rows
    ensures exists n :: i <= n < j && RowThrough(run, i, n, key) && key !in run.states[n + 1].db.rows
                     && Witnessed(c, run, n, key)
  {
    if key in run.states[j - 1].db.rows && RowThrough(run, i, j - 1, key) {
      assert StepAt(c, run, j - 1);
      RowStays(c, run.states[j - 1], run.steps[j - 1], key);
      DecidedWitnessed(c, run, j - 1, run.steps[j - 1].t);
      assert key !in run.states[(j - 1) + 1].db.rows;
    } else {
      var n :| i <= n <= j - 1 && key !in run.states[n].db.rows;
      NoLoss(c, run, i, n, key);
    }
  }
}
