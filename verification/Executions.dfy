/** How often a request is sent over the lifetime of its row. */
module Executions {
  import opened Models
  import opened Dedup
  import opened Lifecycle
  import opened Invariant
  import opened Runs

  /** The current attempt has used its execution, or given it up, and the row does not say so yet. */
  predicate Spent(loc: Loc) {
    loc == Executing || loc.SuccessNoted? || loc == RetryNoted || loc.DeadNoted? || loc.DeadPushed?
  }

  predicate SpentKey(s: State, key: Key) {
    key in s.reg.inflight && s.reg.inflight[key] in s.units && Spent(s.units[s.reg.inflight[key]].loc)
  }

  /** Executions still possible for a row if nothing resets it and nothing crashes. */
  function Budget(c: Config, s: State, key: Key): int
    requires key in s.db.rows
  {
    c.maxRetries + 1 - s.db.rows[key].retryCount - (if SpentKey(s, key) then 1 else 0)
  }

  datatype What =
    | Execution   // the HTTP request is sent
    | Reset       // an upsert hits an existing row
    | Cut         // the process ends with a spent attempt unrecorded
    | Kill        // the process crashes

  predicate Happens(c: Config, s: State, step: Step, what: What, key: Key) {
    match what
    case Execution => step.Execute? && step.t in s.units && KeyOf(c, s.units[step.t]) == key
    case Reset => step.Upsert? && step.t in s.units && KeyOf(c, s.units[step.t]) == key && key in s.db.rows
    case Cut => (step.Crash? || step.Close?) && SpentKey(s, key)
    case Kill => step.Crash?
  }

  function One(c: Config, s: State, step: Step, what: What, key: Key): nat {
    if Happens(c, s, step, what, key) then 1 else 0
  }

  /** How often `what` happens to `key` in steps `i`, .., `j - 1`. */
  function Tally(c: Config, run: Run, what: What, i: nat, j: nat, key: Key): nat
    requires i <= j < |run.states| == |run.steps| + 1
    decreases j
  {
    if i == j then 0
    else Tally(c, run, what, i, j - 1, key) + One(c, run.states[j - 1], run.steps[j - 1], what, key)
  }

  lemma BudgetRange(c: Config, s: State, key: Key)
    requires Inv(c, s) && key in s.db.rows
    ensures 0 <= Budget(c, s, key) <= c.maxRetries + 1
  {
    assert RowGood(c, key, s.db.rows[key]);
  }

  ghost predicate StepBound(c: Config, s: State, step: Step, s': State, key: Key)
    requires key in s.db.rows && key in s'.db.rows
  {
    One(c, s, step, Execution, key) + Budget(c, s', key)
      <= Budget(c, s, key) + One(c, s, step, Cut, key)
         + (if Happens(c, s, step, Reset, key) then c.maxRetries + 1 else 0)
  }

  ghost predicate Elsewhere(c: Config, s: State, step: Step, key: Key) {
    && OnUnit(step) && Enabled(c, s, step) && KeyOf(c, s.units[step.t]) != key
    && (key in s.reg.inflight ==> s.reg.inflight[key] in s.units && s.reg.inflight[key] != step.t)
    && key in s.db.rows
  }

  lemma TouchOther(c: Config, s: State, step: Step, key: Key)
    requires Elsewhere(c, s, step, key) && IsTouch(c, s, step)
    ensures key in Apply(c, s, step).db.rows && StepBound(c, s, step, Apply(c, s, step), key)
  {
    TouchFrame(c, s, step);
  }

  lemma MoveOther(c: Config, s: State, step: Step, key: Key)
    requires Elsewhere(c, s, step, key) && !IsTouch(c, s, step)
    ensures key in Apply(c, s, step).db.rows && StepBound(c, s, step, Apply(c, s, step), key)
  {
  }

  /** A step on the unit of another key leaves row, future and unit of `key` alone. */
  lemma OnOther(c: Config, s: State, step: Step, key: Key)
    requires Elsewhere(c, s, step, key)
    ensures key in Apply(c, s, step).db.rows && StepBound(c, s, step, Apply(c, s, step), key)
  {
    if IsTouch(c, s, step) {
      TouchOther(c, s, step, key);
    } else {
      MoveOther(c, s, step, key);
    }
  }

  lemma WorkOnOwn(c: Config, s: State, step: Step)
    requires IsWork(step) && Enabled(c, s, step) && UnitGood(c, s, step.t)
    requires KeyOf(c, s.units[step.t]) in s.db.rows && KeyOf(c, s.units[step.t]) in Apply(c, s, step).db.rows
    ensures StepBound(c, s, step, Apply(c, s, step), KeyOf(c, s.units[step.t]))
  {
  }

  lemma VerdictOnOwn(c: Config, s: State, step: Step)
    requires IsVerdict(step) && Enabled(c, s, step) && UnitGood(c, s, step.t)
    requires KeyOf(c, s.units[step.t]) in s.db.rows
    ensures KeyOf(c, s.units[step.t]) in Apply(c, s, step).db.rows
    ensures StepBound(c, s, step, Apply(c, s, step), KeyOf(c, s.units[step.t]))
  {
  }

  lemma RestOnOwn(c: Config, s: State, step: Step)
    requires OnUnit(step) && !IsWork(step) && !IsVerdict(step) && Enabled(c, s, step) && UnitGood(c, s, step.t)
    requires KeyOf(c, s.units[step.t]) in s.db.rows && KeyOf(c, s.units[step.t]) in Apply(c, s, step).db.rows
    ensures StepBound(c, s, step, Apply(c, s, step), KeyOf(c, s.units[step.t]))
  {
  }

  /** A step on the unit of the key itself spends, records or resets. */
  lemma OnOwn(c: Config, s: State, step: Step)
    requires OnUnit(step) && Enabled(c, s, step) && UnitGood(c, s, step.t)
    requires KeyOf(c, s.units[step.t]) in s.db.rows && KeyOf(c, s.units[step.t]) in Apply(c, s, step).db.rows
    ensures StepBound(c, s, step, Apply(c, s, step), KeyOf(c, s.units[step.t]))
  {
    if IsWork(step) {
      WorkOnOwn(c, s, step);
    } else if IsVerdict(step) {
      VerdictOnOwn(c, s, step);
    } else {
      RestOnOwn(c, s, step);
    }
  }

  ghost predicate KeyGood(s: State, key: Key) {
    && (key in s.reg.inflight ==>
          IsPending(s.reg, key) && s.reg.inflight[key] in s.units && s.reg.inflight[key] < s.nextId)
    && (s.queue != [] ==> s.queue[0] in s.units && s.units[s.queue[0]].loc == Queued)
  }

  lemma OffUnitOwner(c: Config, s: State, step: Step, key: Key)
    requires (step.Submit? || step.RecoverNext?) && Enabled(c, s, step) && key in s.db.rows && KeyGood(s, key)
    ensures key in Apply(c, s, step).db.rows && StepBound(c, s, step, Apply(c, s, step), key)
  {
  }

  lemma OffUnitDrain(c: Config, s: State, key: Key)
    requires Enabled(c, s, DrainCheck) && key in s.db.rows && KeyGood(s, key)
    ensures key in ApplyDrainCheck(s).db.rows && StepBound(c, s, DrainCheck, ApplyDrainCheck(s), key)
  {
    if !exists t :: t in s.units && IsReschedule(s.units[t]) {
      HaltShape(s);
    }
  }

  /** The other steps touch no row; only the end of the process forgets a spent attempt. */
  lemma OffUnitRest(c: Config, s: State, step: Step, key: Key)
    requires !OnUnit(step) && !step.Submit? && !step.RecoverNext? && !step.DrainCheck? && Enabled(c, s, step)
    requires key in s.db.rows && KeyGood(s, key)
    ensures key in Apply(c, s, step).db.rows && StepBound(c, s, step, Apply(c, s, step), key)
  {
  }

  lemma OffUnit(c: Config, s: State, step: Step, key: Key)
    requires !OnUnit(step) && Enabled(c, s, step) && key in s.db.rows && KeyGood(s, key)
    ensures key in Apply(c, s, step).db.rows && StepBound(c, s, step, Apply(c, s, step), key)
  {
    if step.Submit? || step.RecoverNext? {
      OffUnitOwner(c, s, step, key);
    } else if step.DrainCheck? {
      OffUnitDrain(c, s, key);
    } else {
      OffUnitRest(c, s, step, key);
    }
  }

  lemma KeyFacts(c: Config, s: State, key: Key)
    requires Inv(c, s)
    ensures key in s.reg.inflight ==>
      IsPending(s.reg, key) && s.reg.inflight[key] in s.units && s.reg.inflight[key] < s.nextId
    ensures key in s.reg.inflight ==> KeyOf(c, s.units[s.reg.inflight[key]]) == key
  {
  }

  lemma HeadFacts(c: Config, s: State)
    requires Inv(c, s)
    ensures s.queue != [] ==> s.queue[0] in s.units && s.units[s.queue[0]].loc == Queued
  {
    if s.queue != [] {
      DequeueLoc(c, s.queue, s.unfinished, s.busy, s.units);
    }
  }

  lemma KeyGoodFacts(c: Config, s: State, key: Key)
    requires Inv(c, s)
    ensures KeyGood(s, key)
  {
    KeyFacts(c, s, key);
    HeadFacts(c, s);
  }

  lemma ElsewhereFacts(c: Config, s: State, t: nat, key: Key)
    requires Inv(c, s) && t in s.units && KeyOf(c, s.units[t]) != key
    ensures key in s.reg.inflight ==> s.reg.inflight[key] in s.units && s.reg.inflight[key] != t
  {
    KeyFacts(c, s, key);
  }

  lemma UnitPresent(c: Config, s: State, step: Step)
    requires OnUnit(step) && Enabled(c, s, step)
    ensures step.t in s.units
  {
  }

  lemma StepBounded(c: Config, s: State, step: Step, key: Key)
    requires Inv(c, s) && Enabled(c, s, step) && key in s.db.rows && key in Apply(c, s, step).db.rows
    ensures StepBound(c, s, step, Apply(c, s, step), key)
  {
    if !OnUnit(step) {
      KeyGoodFacts(c, s, key);
      OffUnit(c, s, step, key);
    } else {
      UnitPresent(c, s, step);
      if KeyOf(c, s.units[step.t]) == key {
        UnitFacts(c, s, step.t);
        OnOwn(c, s, step);
      } else {
        ElsewhereFacts(c, s, step.t, key);
        OnOther(c, s, step, key);
      }
    }
  }

  /**
    Over any stretch of a run in which the row of `key` exists, every execution is paid for by the
    retry budget, by an upsert that reset the row, or by the end of a process that had not yet recorded
    the attempt it had spent.
  */
  lemma {:induction false} ExecutionsPaid(c: Config, run: Run, i: nat, j: nat, key: Key)
    requires IsRun(c, run) && i <= j < |run.states| && RowThrough(run, i, j, key)
    ensures Tally(c, run, Execution, i, j, key) + Budget(c, run.states[j], key)
         <= (c.maxRetries + 1) * (1 + Tally(c, run, Reset, i, j, key)) + Tally(c, run, Cut, i, j, key)
  {
    if i == j {
      BudgetAt(c, run, i, key);
    } else {
      ExecutionsPaid(c, run, i, j - 1, key);
      BoundAt(c, run, j - 1, key);
      var resets := Tally(c, run, Reset, i, j - 1, key);
      assert (c.maxRetries + 1) * (1 + (resets + 1)) == (c.maxRetries + 1) * (1 + resets) + (c.maxRetries + 1);
    }
  }

  lemma BoundAt(c: Config, run: Run, m: nat, key: Key)
    requires IsRun(c, run) && m < |run.steps|
    requires key in run.states[m].db.rows && key in run.states[m + 1].db.rows
    ensures StepBound(c, run.states[m], run.steps[m], run.states[m + 1], key)
  {
    Reachable(c, run, m);
    assert StepAt(c, run, m);
    StepBounded(c, run.states[m], run.steps[m], key);
  }

  lemma BudgetAt(c: Config, run: Run, m: nat, key: Key)
    requires IsRun(c, run) && m < |run.states| && key in run.states[m].db.rows
    ensures 0 <= Budget(c, run.states[m], key) <= c.maxRetries + 1
  {
    Reachable(c, run, m);
    BudgetRange(c, run.states[m], key);
  }

  // ----- upserts hit no row when nobody submits before `start` has returned

  /** `start` has returned. */
  predicate Started(s: State) { s.mode.Running? || s.mode.Draining? || s.mode.Halted? }

  ghost predicate NoEarlySubmit(run: Run) {
    forall i :: 0 <= i < |run.steps| && i < |run.states| && run.steps[i].Submit? ==> Started(run.states[i])
  }

  /** A key still waiting for its upsert has no row. */
  ghost predicate FreshOwners(c: Config, s: State) {
    forall t :: t in s.units && s.units[t].loc == Registered ==> KeyOf(c, s.units[t]) !in s.db.rows
  }

  /** Rows appear by an upsert alone. */
  lemma RowAppears(c: Config, s: State, step: Step, key: Key)
    requires Enabled(c, s, step) && key !in s.db.rows && key in Apply(c, s, step).db.rows
    ensures step.Upsert? && KeyOf(c, s.units[step.t]) == key && Apply(c, s, step).units[step.t].loc == Committed
  {
  }

  lemma MoveOwnerStays(c: Config, s: State, step: Step, t: nat)
    requires Enabled(c, s, step) && OnUnit(step) && !IsTouch(c, s, step)
    requires t in Apply(c, s, step).units && Apply(c, s, step).units[t].loc == Registered
    ensures t in s.units && s.units[t].loc == Registered && Apply(c, s, step).units[t].req == s.units[t].req
  {
  }

  lemma TouchLeavesRegistered(c: Config, s: State, step: Step)
    requires Enabled(c, s, step) && IsTouch(c, s, step)
    ensures step.t in Apply(c, s, step).units ==> Apply(c, s, step).units[step.t].loc != Registered
  {
  }

  lemma OwnerStays(c: Config, s: State, step: Step, t: nat)
    requires Enabled(c, s, step) && OnUnit(step)
    requires t in Apply(c, s, step).units && Apply(c, s, step).units[t].loc == Registered
    ensures t in s.units && s.units[t].loc == Registered && Apply(c, s, step).units[t].req == s.units[t].req
  {
    if IsTouch(c, s, step) {
      TouchFrame(c, s, step);
      TouchLeavesRegistered(c, s, step);
    } else {
      MoveOwnerStays(c, s, step, t);
    }
  }

  lemma OwnerStaysOutside(c: Config, s: State, step: Step, t: nat)
    requires Enabled(c, s, step) && !OnUnit(step) && !step.Submit? && !step.DrainCheck? && !step.RecoverNext?
    requires t in Apply(c, s, step).units && Apply(c, s, step).units[t].loc == Registered
    ensures t in s.units && s.units[t].loc == Registered && Apply(c, s, step).units[t].req == s.units[t].req
  {
  }

  lemma RecoveryOwnsNothing(c: Config, s: State, t: nat)
    requires Enabled(c, s, RecoverNext)
    requires t in Apply(c, s, RecoverNext).units && Apply(c, s, RecoverNext).units[t].loc == Registered
    ensures t in s.units && s.units[t].loc == Registered && Apply(c, s, RecoverNext).units[t].req == s.units[t].req
  {
  }

  lemma OwnerSurvivesDrain(s: State, t: nat)
    requires s.mode.Draining? && t in ApplyDrainCheck(s).units && ApplyDrainCheck(s).units[t].loc == Registered
    ensures t in s.units && s.units[t].loc == Registered && ApplyDrainCheck(s).units[t].req == s.units[t].req
  {
  }

  /** Owners appear by a submission alone, under a key that nobody has registered. */
  lemma OwnerAppears(c: Config, s: State, step: Step, t: nat)
    requires Enabled(c, s, step) && !OnUnit(step)
    requires t in Apply(c, s, step).units && Apply(c, s, step).units[t].loc == Registered
    ensures
      || (t in s.units && s.units[t].loc == Registered && Apply(c, s, step).units[t].req == s.units[t].req)
      || (step.Submit? && step.req == Apply(c, s, step).units[t].req
          && !IsPending(s.reg, IdempotencyKey(c.digest, step.req)))
  {
    if step.DrainCheck? {
      OwnerSurvivesDrain(s, t);
    } else if step.RecoverNext? {
      RecoveryOwnsNothing(c, s, t);
    } else if !step.Submit? {
      OwnerStaysOutside(c, s, step, t);
    }
  }

  lemma SubmitFresh(c: Config, s: State, req: Request)
    requires Inv(c, s) && Started(s) && !IsPending(s.reg, IdempotencyKey(c.digest, req))
    ensures IdempotencyKey(c.digest, req) !in s.db.rows
  {
    KeyFacts(c, s, IdempotencyKey(c.digest, req));
  }

  lemma OldOwnerFresh(c: Config, s: State, step: Step, t: nat)
    requires FreshOwners(c, s) && Enabled(c, s, step) && OnUnit(step)
    requires t in Apply(c, s, step).units && Apply(c, s, step).units[t].loc == Registered
    requires forall t' :: t' in s.units && KeyOf(c, s.units[t']) == KeyOf(c, Apply(c, s, step).units[t]) ==> t' == t
    ensures KeyOf(c, Apply(c, s, step).units[t]) !in Apply(c, s, step).db.rows
  {
    OwnerStays(c, s, step, t);
    if KeyOf(c, Apply(c, s, step).units[t]) in Apply(c, s, step).db.rows {
      RowAppears(c, s, step, KeyOf(c, Apply(c, s, step).units[t]));
    }
  }

  lemma RowsAtSubmit(c: Config, s: State, req: Request)
    requires Enabled(c, s, Submit(req))
    ensures Apply(c, s, Submit(req)).db == s.db
  {
  }

  lemma RowsAtRecovery(c: Config, s: State)
    requires Enabled(c, s, RecoverNext)
    ensures Apply(c, s, RecoverNext).db == s.db
  {
  }

  lemma RowsAtCheck(c: Config, s: State)
    requires Enabled(c, s, DrainCheck)
    ensures ApplyDrainCheck(s).db == s.db
  {
  }

  lemma RowsAtRest(c: Config, s: State, step: Step)
    requires Enabled(c, s, step) && !OnUnit(step) && !step.Submit? && !step.RecoverNext? && !step.DrainCheck?
    ensures Apply(c, s, step).db.rows == s.db.rows
  {
  }

  lemma RowsOutside(c: Config, s: State, step: Step)
    requires Enabled(c, s, step) && !OnUnit(step)
    ensures Apply(c, s, step).db.rows == s.db.rows
  {
    if step.Submit? {
      RowsAtSubmit(c, s, step.req);
    } else if step.RecoverNext? {
      RowsAtRecovery(c, s);
    } else if step.DrainCheck? {
      RowsAtCheck(c, s);
    } else {
      RowsAtRest(c, s, step);
    }
  }

  lemma OneUnitPerKey(c: Config, s: State, key: Key)
    requires Inv(c, s)
    ensures forall t, t' :: t in s.units && t' in s.units && KeyOf(c, s.units[t]) == key && KeyOf(c, s.units[t']) == key
                      ==> t == t'
  {
  }

  lemma OwnerFresh(c: Config, s: State, step: Step, t: nat)
    requires Inv(c, s) && FreshOwners(c, s) && Enabled(c, s, step) && (step.Submit? ==> Started(s))
    requires t in Apply(c, s, step).units && Apply(c, s, step).units[t].loc == Registered
    ensures KeyOf(c, Apply(c, s, step).units[t]) !in Apply(c, s, step).db.rows
  {
    var key := KeyOf(c, Apply(c, s, step).units[t]);
    if OnUnit(step) {
      OwnerStays(c, s, step, t);
      OneUnitPerKey(c, s, key);
      OldOwnerFresh(c, s, step, t);
    } else {
      OwnerAppears(c, s, step, t);
      RowsOutside(c, s, step);
      if key in s.db.rows {
        SubmitFresh(c, s, step.req);
      }
    }
  }

  lemma OwnersFreshAt(c: Config, run: Run, m: nat)
    requires IsRun(c, run) && NoEarlySubmit(run) && m < |run.steps| && FreshOwners(c, run.states[m])
    ensures FreshOwners(c, run.states[m + 1])
  {
    Reachable(c, run, m);
    assert StepAt(c, run, m);
    var s' := run.states[m + 1];
    forall t | t in s'.units && s'.units[t].loc == Registered
      ensures KeyOf(c, s'.units[t]) !in s'.db.rows
    {
      OwnerFresh(c, run.states[m], run.steps[m], t);
    }
  }

  lemma {:induction false} OwnersFresh(c: Config, run: Run, i: nat)
    requires IsRun(c, run) && NoEarlySubmit(run) && i < |run.states|
    ensures FreshOwners(c, run.states[i])
  {
    if i == 0 {
    } else {
      OwnersFresh(c, run, i - 1);
      OwnersFreshAt(c, run, i - 1);
    }
  }

  lemma {:induction false} NoResets(c: Config, run: Run, i: nat, j: nat, key: Key)
    requires IsRun(c, run) && NoEarlySubmit(run) && i <= j < |run.states|
    ensures Tally(c, run, Reset, i, j, key) == 0
  {
    if i == j {
    } else {
      NoResets(c, run, i, j - 1, key);
      OwnersFresh(c, run, j - 1);
      assert StepAt(c, run, j - 1);
    }
  }

  // ----- a graceful stop cuts nothing when its check sees what `join` saw

  ghost predicate ExactDrains(run: Run) {
    forall i :: 0 <= i < |run.steps| && i < |run.states| && run.steps[i].DrainCheck? ==> run.states[i].unfinished == 0
  }

  ghost predicate IdleHalt(s: State) {
    s.mode == Halted ==> forall t :: t in s.units ==> !AtWorker(s.units[t].loc)
  }

  /** A unit at a worker after the step was at one before, and the mode is the same. */
  ghost predicate ComesFromWorker(s: State, s': State, t: nat) {
    t in s'.units && AtWorker(s'.units[t].loc) ==> t in s.units && AtWorker(s.units[t].loc) && s'.mode == s.mode
  }

  lemma OwnerLeavesWorkers(c: Config, s: State, step: Step, t: nat)
    requires Enabled(c, s, step) && IsTouch(c, s, step) && !IsWork(step) && !IsVerdict(step)
    ensures ComesFromWorker(s, Apply(c, s, step), t)
  {
  }

  lemma ActsAtWorker(c: Config, s: State, step: Step)
    requires Enabled(c, s, step) && (IsWork(step) || IsVerdict(step))
    ensures step.t in s.units && AtWorker(s.units[step.t].loc)
  {
  }

  lemma TouchedAtWorker(c: Config, s: State, step: Step, t: nat)
    requires Enabled(c, s, step) && IsTouch(c, s, step)
    ensures ComesFromWorker(s, Apply(c, s, step), t)
  {
    if IsWork(step) || IsVerdict(step) {
      ActsAtWorker(c, s, step);
      TouchFrame(c, s, step);
    } else {
      OwnerLeavesWorkers(c, s, step, t);
    }
  }

  lemma MovedAtWorker(c: Config, s: State, step: Step, t: nat)
    requires Enabled(c, s, step) && OnUnit(step) && !IsTouch(c, s, step)
    requires t in Apply(c, s, step).units && AtWorker(Apply(c, s, step).units[t].loc)
    ensures t in s.units && AtWorker(s.units[t].loc) && Apply(c, s, step).mode == s.mode
  {
  }

  /** Work reaches a worker through the queue alone. */
  lemma AtWorkerBefore(c: Config, s: State, step: Step, t: nat)
    requires Enabled(c, s, step) && OnUnit(step)
    requires t in Apply(c, s, step).units && AtWorker(Apply(c, s, step).units[t].loc)
    ensures t in s.units && AtWorker(s.units[t].loc) && Apply(c, s, step).mode == s.mode
  {
    if IsTouch(c, s, step) {
      TouchedAtWorker(c, s, step, t);
    } else {
      MovedAtWorker(c, s, step, t);
    }
  }

  lemma HaltsIdle(c: Config, s: State, t: nat)
    requires Inv(c, s) && s.mode.Draining? && s.unfinished == 0 && t in ApplyDrainCheck(s).units
    ensures !AtWorker(ApplyDrainCheck(s).units[t].loc)
  {
    assert t in s.units && t !in s.busy && FitsMode(s.mode, t, s.units[t]);
  }

  lemma StaysIdle(c: Config, s: State, step: Step, t: nat)
    requires IdleHalt(s) && Enabled(c, s, step) && !step.DrainCheck?
    requires Apply(c, s, step).mode == Halted && t in Apply(c, s, step).units
    ensures !AtWorker(Apply(c, s, step).units[t].loc)
  {
    if OnUnit(step) {
      if AtWorker(Apply(c, s, step).units[t].loc) {
        AtWorkerBefore(c, s, step, t);
      }
    }
  }

  lemma {:induction false} HaltIsIdle(c: Config, run: Run, i: nat)
    requires IsRun(c, run) && ExactDrains(run) && i < |run.states|
    ensures IdleHalt(run.states[i])
  {
    if i == 0 {
    } else {
      HaltIsIdle(c, run, i - 1);
      HaltIsIdleAt(c, run, i - 1);
    }
  }

  lemma HaltIsIdleAt(c: Config, run: Run, m: nat)
    requires IsRun(c, run) && ExactDrains(run) && m < |run.steps| && IdleHalt(run.states[m])
    ensures IdleHalt(run.states[m + 1])
  {
    Reachable(c, run, m);
    assert StepAt(c, run, m);
    var s' := run.states[m + 1];
    if s'.mode == Halted {
      forall t | t in s'.units
        ensures !AtWorker(s'.units[t].loc)
      {
        if run.steps[m].DrainCheck? {
          HaltsIdle(c, run.states[m], t);
        } else {
          StaysIdle(c, run.states[m], run.steps[m], t);
        }
      }
    }
  }

  lemma {:induction false} CutsAreKills(c: Config, run: Run, i: nat, j: nat, key: Key)
    requires IsRun(c, run) && ExactDrains(run) && i <= j < |run.states|
    ensures Tally(c, run, Cut, i, j, key) <= Tally(c, run, Kill, i, j, key)
  {
    if i == j {
    } else {
      CutsAreKills(c, run, i, j - 1, key);
      HaltIsIdle(c, run, j - 1);
      assert StepAt(c, run, j - 1);
    }
  }

  /**
    When nobody submits before `start` has returned, a request is executed at most `max_retries` + 1
    times over the lifetime of its row, plus once for each process that ended with the attempt it had
    spent unrecorded; with the wake-up from `join` and the check of `drain` taken as one, only crashes
    end a process that way.
  */
  lemma ExecutionBound(c: Config, run: Run, i: nat, j: nat, key: Key)
    requires IsRun(c, run) && NoEarlySubmit(run) && i <= j < |run.states| && RowThrough(run, i, j, key)
    ensures Tally(c, run, Execution, i, j, key) <= c.maxRetries + 1 + Tally(c, run, Cut, i, j, key)
    ensures ExactDrains(run) ==>
      Tally(c, run, Execution, i, j, key) <= c.maxRetries + 1 + Tally(c, run, Kill, i, j, key)
  {
    ExecutionsPaid(c, run, i, j, key);
    NoResets(c, run, i, j, key);
    BudgetAt(c, run, j, key);
    if ExactDrains(run) {
      CutsAreKills(c, run, i, j, key);
    }
  }
}
