/** A graceful stop ends, in a bounded number of steps, and leaves exactly the retries it abandoned. */
module Stop {
  import opened Models
  import opened Lifecycle
  import opened Invariant
  import opened Runs
  import opened Executions
  import opened Settlement
  import opened Measures
  import opened Drain

  predicate BeingSubmitted(loc: Loc) { loc == Registered || loc == Committed || loc == SubmitBlocked }

  /** The check of `drain` sees what `join` saw, and no submission is under way. */
  ghost predicate Drained(s: State) {
    && s.unfinished == 0
    && forall t :: t in s.units ==> !IsReschedule(s.units[t]) && !BeingSubmitted(s.units[t].loc)
  }

  lemma DrainedMeansAbandoned(c: Config, s: State, t: nat)
    requires Inv(c, s) && s.mode.Draining? && Drained(s) && t in s.units
    ensures !s.units[t].live && s.units[t].loc == Sleeping
  {
    assert |s.queue| == 0 && |s.busy| == 0;
    UnitFacts(c, s, t);
  }

  /** `key` belongs to a retry that gave up its sleep because stop had been called. */
  ghost predicate AbandonedRetry(c: Config, s: State, key: Key) {
    exists t :: t in s.units && !s.units[t].live && s.units[t].loc == Sleeping && KeyOf(c, s.units[t]) == key
  }

  lemma RowsAreAbandoned(c: Config, s: State, key: Key)
    requires Inv(c, s) && s.mode.Draining? && Drained(s)
    ensures key in s.db.rows <==> AbandonedRetry(c, s, key)
  {
    if key in s.db.rows {
      KeyFacts(c, s, key);
      assert key in s.reg.inflight;
      DrainedMeansAbandoned(c, s, s.reg.inflight[key]);
    }
    if t :| t in s.units && !s.units[t].live && s.units[t].loc == Sleeping && KeyOf(c, s.units[t]) == key {
      UnitFacts(c, s, t);
    }
  }

  lemma DrainedHalts(c: Config, s: State)
    requires Drained(s) && Enabled(c, s, DrainCheck)
    ensures Apply(c, s, DrainCheck).mode == Halted && Apply(c, s, DrainCheck).db == s.db
  {
  }

  // ----- stop comes to its end

  /** What goes on after `stop` was called, when nobody submits: the work itself and the loop of `drain`. */
  predicate IsStopping(step: Step) { Internal(step) || step.JoinReturns? || step.DrainCheck? }

  /** How far the loop of `drain` can get before some work is done. */
  function Phase(s: State): nat
    requires s.mode.Draining?
  {
    if s.mode.joined then 1 else if AllDone(s, s.mode.gathered) then 2 else 0
  }

  function StopWeight(c: Config, s: State): nat {
    if s.mode.Draining? then 3 * Total(c, StepsLeft, s) + Phase(s) else 0
  }

  lemma CheckLighter(c: Config, s: State)
    requires Enabled(c, s, DrainCheck)
    ensures
      var s' := Apply(c, s, DrainCheck);
      StopWeight(c, s') < StopWeight(c, s) && (s'.mode.Draining? || s'.mode == Halted)
  {
    if task :| task in PendingTasks(s) {
      assert IsPendingTask(s.(mode := Draining(false, PendingTasks(s))), task);
    }
  }

  lemma JoinLighter(c: Config, s: State)
    requires Enabled(c, s, JoinReturns)
    ensures
      var s' := Apply(c, s, JoinReturns);
      StopWeight(c, s') < StopWeight(c, s) && s'.mode.Draining?
  {
  }

  lemma KeepsMode(c: Config, s: State, step: Step)
    requires Internal(step) && Enabled(c, s, step)
    ensures Apply(c, s, step).mode == s.mode
  {
  }

  lemma WorkLightens(c: Config, s: State, step: Step)
    requires s.mode.Draining? && Internal(step) && Enabled(c, s, step) && ActorGood(c, s, step)
    ensures Apply(c, s, step).mode.Draining? && StopWeight(c, Apply(c, s, step)) < StopWeight(c, s)
  {
    StepLighter(c, s, step);
    KeepsMode(c, s, step);
  }

  lemma StopLighter(c: Config, s: State, step: Step)
    requires Inv(c, s) && s.mode.Draining? && IsStopping(step) && Enabled(c, s, step)
    ensures
      var s' := Apply(c, s, step);
      StopWeight(c, s') < StopWeight(c, s) && (s'.mode.Draining? || s'.mode == Halted)
  {
    if step.JoinReturns? {
      JoinLighter(c, s);
    } else if step.DrainCheck? {
      CheckLighter(c, s);
    } else {
      ActorFacts(c, s, step);
      WorkLightens(c, s, step);
    }
  }

  lemma NobodyLeft(c: Config, s: State)
    requires Inv(c, s) && s.mode.Draining? && forall t :: t in s.units ==> !s.units[t].live
    ensures s.unfinished == 0 && forall tasks :: AllDone(s, tasks)
  {
    if s.queue != [] {
      HeadFacts(c, s);
      assert false;
    }
    assert s.busy == {};
  }

  /** Until stop is over somebody can move: a carrier, or the loop of `drain` when there is none. */
  lemma StopMoves(c: Config, s: State) returns (step: Step)
    requires Inv(c, s) && s.mode.Draining? && c.workers > 0 && c.maxSize > 0
    ensures IsStopping(step) && Enabled(c, s, step)
  {
    if s.mode.joined {
      step := DrainCheck;
    } else if t :| t in s.units && s.units[t].live {
      step := Progress(c, s, t);
    } else {
      NobodyLeft(c, s);
      step := JoinReturns;
    }
  }

  predicate StoppingAt(run: Run, m: nat) {
    m < |run.states| && m < |run.steps| && IsStopping(run.steps[m]) && run.states[m].mode.Draining?
  }

  /** `stop` is called at step `i`, nobody submits, and it is at work until `j`. */
  ghost predicate StopUpTo(c: Config, run: Run, i: nat, j: nat) {
    && IsRun(c, run) && i < j < |run.states| && run.steps[i] == BeginStop
    && forall m: nat :: i < m < j ==> StoppingAt(run, m)
  }

  lemma StopLighterAt(c: Config, run: Run, m: nat)
    requires IsRun(c, run) && m < |run.steps| && IsStopping(run.steps[m]) && run.states[m].mode.Draining?
    ensures
      var s, s' := run.states[m], run.states[m + 1];
      StopWeight(c, s') < StopWeight(c, s) && (s'.mode.Draining? || s'.mode == Halted)
  {
    Reachable(c, run, m);
    assert StepAt(c, run, m);
    StopLighter(c, run.states[m], run.steps[m]);
  }

  lemma StopBegins(c: Config, run: Run, i: nat)
    requires IsRun(c, run) && i < |run.steps| && run.steps[i] == BeginStop
    ensures run.states[i + 1].mode.Draining?
    ensures StopWeight(c, run.states[i + 1]) == 3 * Total(c, StepsLeft, run.states[i]) + 2
  {
    assert StepAt(c, run, i);
  }

  lemma {:induction false} StopBound(c: Config, run: Run, i: nat, j: nat)
    requires StopUpTo(c, run, i, j)
    ensures (j - i - 1) + StopWeight(c, run.states[j]) <= 3 * Total(c, StepsLeft, run.states[i]) + 2
    ensures run.states[j].mode.Draining? || run.states[j].mode == Halted
    decreases j
  {
    if j == i + 1 {
      StopBegins(c, run, i);
    } else {
      assert StoppingAt(run, j - 1);
      StopBound(c, run, i, j - 1);
      StopLighterAt(c, run, j - 1);
    }
  }

  /** No caller is between its `get_or_create` and its `enqueue`. */
  ghost predicate NoSubmission(s: State) { forall t :: t in s.units ==> !BeingSubmitted(s.units[t].loc) }

  lemma WorkEndsElsewhere(c: Config, s: State, step: Step)
    requires Enabled(c, s, step) && (IsWork(step) || IsVerdict(step))
    ensures step.t in Apply(c, s, step).units && !BeingSubmitted(Apply(c, s, step).units[step.t].loc)
  {
  }

  lemma OwnerSubmitsNot(c: Config, s: State, step: Step)
    requires NoSubmission(s) && Enabled(c, s, step) && IsTouch(c, s, step) && !IsWork(step) && !IsVerdict(step)
    ensures NoSubmission(Apply(c, s, step))
  {
  }

  lemma TouchSubmitsNot(c: Config, s: State, step: Step)
    requires NoSubmission(s) && Enabled(c, s, step) && IsTouch(c, s, step)
    ensures NoSubmission(Apply(c, s, step))
  {
    if IsWork(step) || IsVerdict(step) {
      TouchFrame(c, s, step);
      WorkEndsElsewhere(c, s, step);
    } else {
      OwnerSubmitsNot(c, s, step);
    }
  }

  lemma MoveSubmitsNot(c: Config, s: State, step: Step)
    requires NoSubmission(s) && Enabled(c, s, step) && Internal(step) && !IsTouch(c, s, step)
    ensures NoSubmission(Apply(c, s, step))
  {
  }

  lemma StopSubmitsNot(c: Config, s: State, step: Step)
    requires NoSubmission(s) && Enabled(c, s, step) && IsStopping(step)
    ensures NoSubmission(Apply(c, s, step))
  {
    if Internal(step) {
      if IsTouch(c, s, step) {
        TouchSubmitsNot(c, s, step);
      } else {
        MoveSubmitsNot(c, s, step);
      }
    }
  }

  lemma {:induction false} NothingSubmitted(c: Config, run: Run, i: nat, j: nat)
    requires StopUpTo(c, run, i, j) && NoSubmission(run.states[i])
    ensures NoSubmission(run.states[j])
    decreases j
  {
    assert StepAt(c, run, j - 1);
    if j == i + 1 {
    } else {
      assert StoppingAt(run, j - 1);
      NothingSubmitted(c, run, i, j - 1);
      StopSubmitsNot(c, run.states[j - 1], run.steps[j - 1]);
    }
  }

  /** Nothing of it can move at `j`, or it is over. */
  ghost predicate AtRest(c: Config, s: State) {
    s.mode == Halted || forall step :: IsStopping(step) ==> !Enabled(c, s, step)
  }

  /**
    Stop always comes to its end: whatever order the work is done in, it halts after at most three times
    as many steps as the work it found can take, and three more.
  */
  lemma StopHalts(c: Config, run: Run, i: nat, j: nat)
    requires StopUpTo(c, run, i, j) && c.workers > 0 && c.maxSize > 0 && AtRest(c, run.states[j])
    ensures run.states[j].mode == Halted && j - i <= 3 * Total(c, StepsLeft, run.states[i]) + 3
    ensures run.steps[j - 1] == DrainCheck
  {
    StopBound(c, run, i, j);
    if run.states[j].mode != Halted {
      Reachable(c, run, j);
      var step := StopMoves(c, run.states[j]);
      assert false;
    }
    assert StepAt(c, run, j - 1);
    assert j - 1 > i ==> StoppingAt(run, j - 1);
    if Internal(run.steps[j - 1]) {
      KeepsMode(c, run.states[j - 1], run.steps[j - 1]);
    }
  }

  lemma EveryTaskPends(s: State)
    ensures forall t :: t in s.units && IsReschedule(s.units[t]) ==> Task(t, s.units[t].attempt) in PendingTasks(s)
  {
  }

  lemma HaltsWithoutTasks(c: Config, s: State)
    requires Enabled(c, s, DrainCheck) && Apply(c, s, DrainCheck).mode == Halted
    ensures forall t :: t in s.units ==> !IsReschedule(s.units[t])
  {
    EveryTaskPends(s);
  }

  /** With the wake-up from `join` and the check of `drain` taken as one, stop ends with nothing left to do. */
  lemma StopDrains(c: Config, run: Run, i: nat, j: nat)
    requires StopUpTo(c, run, i, j) && c.workers > 0 && c.maxSize > 0 && AtRest(c, run.states[j])
    requires NoSubmission(run.states[i]) && ExactDrains(run)
    ensures run.steps[j - 1] == DrainCheck && Drained(run.states[j - 1]) && run.states[j].mode == Halted
  {
    StopHalts(c, run, i, j);
    assert StepAt(c, run, j - 1);
    var s := run.states[j - 1];
    assert StepAt(c, run, i);
    NothingSubmitted(c, run, i, j - 1);
    HaltsWithoutTasks(c, s);
  }

  lemma LeavesAt(c: Config, run: Run, m: nat, key: Key)
    requires IsRun(c, run) && m < |run.steps| && run.steps[m] == DrainCheck && Drained(run.states[m])
    ensures key in run.states[m + 1].db.rows <==> AbandonedRetry(c, run.states[m], key)
  {
    Reachable(c, run, m);
    assert StepAt(c, run, m);
    DrainedHalts(c, run.states[m]);
    RowsAreAbandoned(c, run.states[m], key);
  }

  /**
    Stop without concurrent submissions ends, and leaves exactly the rows of the retries it abandoned.
  */
  lemma StopLeavesAbandoned(c: Config, run: Run, i: nat, j: nat, key: Key)
    requires StopUpTo(c, run, i, j) && c.workers > 0 && c.maxSize > 0 && AtRest(c, run.states[j])
    requires NoSubmission(run.states[i]) && ExactDrains(run)
    ensures run.states[j].mode == Halted && j - i <= 3 * Total(c, StepsLeft, run.states[i]) + 3
    ensures key in run.states[j].db.rows <==> AbandonedRetry(c, run.states[j - 1], key)
  {
    StopHalts(c, run, i, j);
    StopDrains(c, run, i, j);
    LeavesAt(c, run, j - 1, key);
  }

  // ----- a retry whose sleep ends after stop was called is left alone

  lemma SleeperStays(c: Config, s: State, step: Step, t: nat)
    requires Stopping(s) && t in s.units && s.units[t].loc == Sleeping && Enabled(c, s, step)
    requires !step.Crash? && !step.Close? && t < s.nextId && (s.queue != [] ==> s.queue[0] != t)
    ensures
      var s' := Apply(c, s, step);
      Stopping(s') && t in s'.units && s'.units[t].loc == Sleeping && s'.units[t].attempt == s.units[t].attempt
  {
    if IsTouch(c, s, step) {
      TouchFrame(c, s, step);
    }
  }

  lemma SleeperStaysAt(c: Config, run: Run, m: nat, t: nat)
    requires IsRun(c, run) && m < |run.steps| && !run.steps[m].Crash? && !run.steps[m].Close?
    requires Stopping(run.states[m]) && t in run.states[m].units && run.states[m].units[t].loc == Sleeping
    ensures
      var s, s' := run.states[m], run.states[m + 1];
      Stopping(s') && t in s'.units && s'.units[t].loc == Sleeping && s'.units[t].attempt == s.units[t].attempt
  {
    Reachable(c, run, m);
    UnitFacts(c, run.states[m], t);
    HeadFacts(c, run.states[m]);
    assert StepAt(c, run, m);
    SleeperStays(c, run.states[m], run.steps[m], t);
  }

  /** Once stop has been called, a sleeping retry is never queued again in this process: it keeps row and attempt. */
  lemma {:induction false} SleepersAreAbandoned(c: Config, run: Run, i: nat, j: nat, t: nat)
    requires IsRun(c, run) && i <= j < |run.states| && SameProcess(run, i, j)
    requires Stopping(run.states[i]) && t in run.states[i].units && run.states[i].units[t].loc == Sleeping
    ensures
      var s, s' := run.states[i], run.states[j];
      Stopping(s') && t in s'.units && s'.units[t].loc == Sleeping && s'.units[t].attempt == s.units[t].attempt
    decreases j
  {
    if i == j {
    } else {
      SleepersAreAbandoned(c, run, i, j - 1, t);
      SleeperStaysAt(c, run, j - 1, t);
    }
  }
}
