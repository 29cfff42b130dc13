/** Bounded work: what is submitted gets done, in a bounded number of steps, unless stop abandons it. */
module Drain {
  import opened Lifecycle
  import opened Invariant
  import opened Runs
  import opened Dedup
  import opened Executions
  import opened Settlement
  import opened Measures

  /** The steps of owners, workers and reschedules: everything but submissions, recovery and stop. */
  predicate Internal(step: Step) { OnUnit(step) || step.Dequeue? }

  function Actor(s: State, step: Step): nat
    requires Internal(step) && (step.Dequeue? ==> s.queue != [])
  {
    if step.Dequeue? then s.queue[0] else step.t
  }

  lemma TouchAlone(c: Config, s: State, step: Step)
    requires Internal(step) && Enabled(c, s, step) && IsTouch(c, s, step)
    ensures OnlyAt(s.units, Apply(c, s, step).units, step.t) && Apply(c, s, step).nextId == s.nextId
  {
    TouchFrame(c, s, step);
  }

  lemma MoveAlone(c: Config, s: State, step: Step)
    requires Internal(step) && Enabled(c, s, step) && !IsTouch(c, s, step)
    ensures OnlyAt(s.units, Apply(c, s, step).units, Actor(s, step)) && Apply(c, s, step).nextId == s.nextId
  {
  }

  lemma ActsAlone(c: Config, s: State, step: Step)
    requires Internal(step) && Enabled(c, s, step)
    ensures OnlyAt(s.units, Apply(c, s, step).units, Actor(s, step)) && Apply(c, s, step).nextId == s.nextId
  {
    if IsTouch(c, s, step) {
      TouchAlone(c, s, step);
    } else {
      MoveAlone(c, s, step);
    }
  }

  lemma VerdictLighter(c: Config, s: State, step: Step)
    requires (step.Reject? || step.Reply?) && Enabled(c, s, step)
    ensures WeightAt(c, StepsLeft, Apply(c, s, step).units, step.t) < WeightAt(c, StepsLeft, s.units, step.t)
  {
  }

  lemma OwnerLighter(c: Config, s: State, step: Step)
    requires Enabled(c, s, step) && IsTouch(c, s, step) && (step.Upsert? || step.SubmitResume? || step.Wake?)
    ensures WeightAt(c, StepsLeft, Apply(c, s, step).units, step.t) < WeightAt(c, StepsLeft, s.units, step.t)
  {
  }

  lemma AttemptLighter(c: Config, s: State, step: Step)
    requires Enabled(c, s, step) && (step.Execute? || step.BumpRetry?)
    ensures WeightAt(c, StepsLeft, Apply(c, s, step).units, step.t) < WeightAt(c, StepsLeft, s.units, step.t)
  {
  }

  lemma RecordLighter(c: Config, s: State, step: Step)
    requires Enabled(c, s, step) && (step.EraseRow? || step.PushDead?)
    ensures WeightAt(c, StepsLeft, Apply(c, s, step).units, step.t) < WeightAt(c, StepsLeft, s.units, step.t)
  {
  }

  lemma WorkerLighter(c: Config, s: State, step: Step)
    requires Enabled(c, s, step) && IsWork(step)
    ensures WeightAt(c, StepsLeft, Apply(c, s, step).units, step.t) < WeightAt(c, StepsLeft, s.units, step.t)
  {
    if step.Execute? || step.BumpRetry? {
      AttemptLighter(c, s, step);
    } else {
      RecordLighter(c, s, step);
    }
  }

  lemma TouchLighter(c: Config, s: State, step: Step)
    requires Enabled(c, s, step) && IsTouch(c, s, step) && !step.Reject? && !step.Reply?
    ensures WeightAt(c, StepsLeft, Apply(c, s, step).units, step.t) < WeightAt(c, StepsLeft, s.units, step.t)
  {
    if step.Upsert? || step.SubmitResume? || step.Wake? {
      OwnerLighter(c, s, step);
    } else {
      WorkerLighter(c, s, step);
    }
  }

  lemma MoveLighter(c: Config, s: State, step: Step)
    requires Internal(step) && Enabled(c, s, step) && !IsTouch(c, s, step) && UnitGood(c, s, Actor(s, step))
    requires step.Dequeue? ==> s.units[s.queue[0]].loc == Queued
    ensures
      var t, s' := Actor(s, step), Apply(c, s, step);
      WeightAt(c, StepsLeft, s'.units, t) < WeightAt(c, StepsLeft, s.units, t)
  {
  }

  lemma ActorLighter(c: Config, s: State, step: Step)
    requires Internal(step) && Enabled(c, s, step) && UnitGood(c, s, Actor(s, step))
    requires step.Dequeue? ==> s.units[s.queue[0]].loc == Queued
    ensures
      var t, s' := Actor(s, step), Apply(c, s, step);
      WeightAt(c, StepsLeft, s'.units, t) < WeightAt(c, StepsLeft, s.units, t)
  {
    if step.Reject? || step.Reply? {
      VerdictLighter(c, s, step);
    } else if IsTouch(c, s, step) {
      TouchLighter(c, s, step);
    } else {
      MoveLighter(c, s, step);
    }
  }

  lemma WorkPays(c: Config, s: State, step: Step)
    requires IsWork(step) && Enabled(c, s, step)
    ensures WeightAt(c, HandleRuns, Apply(c, s, step).units, step.t) <= WeightAt(c, HandleRuns, s.units, step.t)
  {
  }

  lemma VerdictPays(c: Config, s: State, step: Step)
    requires IsVerdict(step) && Enabled(c, s, step)
    ensures WeightAt(c, HandleRuns, Apply(c, s, step).units, step.t) <= WeightAt(c, HandleRuns, s.units, step.t)
  {
  }

  lemma OwnerPays(c: Config, s: State, step: Step)
    requires IsTouch(c, s, step) && Enabled(c, s, step) && !IsWork(step) && !IsVerdict(step)
    ensures WeightAt(c, HandleRuns, Apply(c, s, step).units, step.t) <= WeightAt(c, HandleRuns, s.units, step.t)
  {
  }

  lemma TouchPays(c: Config, s: State, step: Step)
    requires IsTouch(c, s, step) && Enabled(c, s, step)
    ensures WeightAt(c, HandleRuns, Apply(c, s, step).units, step.t) <= WeightAt(c, HandleRuns, s.units, step.t)
  {
    if IsWork(step) {
      WorkPays(c, s, step);
    } else if IsVerdict(step) {
      VerdictPays(c, s, step);
    } else {
      OwnerPays(c, s, step);
    }
  }

  lemma LeavePays(c: Config, s: State, step: Step)
    requires (step.Dequeue? || step.Resolve? || step.Fail? || step.Reschedule?) && Enabled(c, s, step)
    requires UnitGood(c, s, Actor(s, step)) && (step.Dequeue? ==> s.units[s.queue[0]].loc == Queued)
    ensures
      var t, s' := Actor(s, step), Apply(c, s, step);
      WeightAt(c, HandleRuns, s'.units, t) + (if step.Dequeue? then 1 else 0) <= WeightAt(c, HandleRuns, s.units, t)
  {
  }

  lemma PutPays(c: Config, s: State, step: Step)
    requires (step.Put? || step.SubmitResume? || step.Wake?) && Enabled(c, s, step) && !IsTouch(c, s, step)
    ensures WeightAt(c, HandleRuns, Apply(c, s, step).units, step.t) <= WeightAt(c, HandleRuns, s.units, step.t)
  {
  }

  lemma ActorPays(c: Config, s: State, step: Step)
    requires Internal(step) && Enabled(c, s, step) && UnitGood(c, s, Actor(s, step))
    requires step.Dequeue? ==> s.units[s.queue[0]].loc == Queued
    ensures
      var t, s' := Actor(s, step), Apply(c, s, step);
      WeightAt(c, HandleRuns, s'.units, t) + (if step.Dequeue? then 1 else 0) <= WeightAt(c, HandleRuns, s.units, t)
  {
    if IsTouch(c, s, step) {
      TouchPays(c, s, step);
    } else if step.Dequeue? || step.Resolve? || step.Fail? || step.Reschedule? {
      LeavePays(c, s, step);
    } else {
      PutPays(c, s, step);
    }
  }

  ghost predicate ActorGood(c: Config, s: State, step: Step)
    requires Internal(step) && Enabled(c, s, step)
  {
    && UnitGood(c, s, Actor(s, step))
    && (step.Dequeue? ==> s.units[s.queue[0]].loc == Queued)
  }

  lemma InternalActor(c: Config, s: State, step: Step)
    requires Internal(step) && Enabled(c, s, step)
    ensures Actor(s, step) in s.units
  {
  }

  lemma ActorFacts(c: Config, s: State, step: Step)
    requires Inv(c, s) && Internal(step) && Enabled(c, s, step)
    ensures ActorGood(c, s, step)
  {
    HeadFacts(c, s);
    InternalActor(c, s, step);
    UnitFacts(c, s, Actor(s, step));
  }

  /** Every internal step makes the state lighter, and a `_handle` run is paid for. */
  lemma StepLighter(c: Config, s: State, step: Step)
    requires Internal(step) && Enabled(c, s, step) && ActorGood(c, s, step)
    ensures
      var s' := Apply(c, s, step);
      && Total(c, StepsLeft, s') < Total(c, StepsLeft, s)
      && Total(c, HandleRuns, s') + (if step.Dequeue? then 1 else 0) <= Total(c, HandleRuns, s)
  {
    var t, s' := Actor(s, step), Apply(c, s, step);
    ActsAlone(c, s, step);
    ActorLighter(c, s, step);
    ActorPays(c, s, step);
    SumChange(c, StepsLeft, s.units, s'.units, s.nextId, t);
    SumChange(c, HandleRuns, s.units, s'.units, s.nextId, t);
  }

  // ----- no deadlock

  /** The step that whoever carries unit `t` takes next, when it needs no queue slot and no worker. */
  function NextOf(u: Unit, t: nat): Step {
    match u.loc
    case Registered => Upsert(t, 0.0)
    case Committed => SubmitResume(t)
    case SubmitBlocked => Put(t)
    case RecoverBlocked => Put(t)
    case Queued => Dequeue
    case Handling => Execute(t)
    case Executing => Reply(t, Transient)
    case SuccessNoted(_) => EraseRow(t)
    case SuccessErased(_) => Resolve(t)
    case RetryNoted => BumpRetry(t)
    case RetryWritten => Reschedule(t)
    case DeadNoted(_) => PushDead(t)
    case DeadPushed(_) => EraseRow(t)
    case DeadErased(_) => Fail(t)
    case Sleeping => Wake(t)
    case RescheduleBlocked => Put(t)
  }

  lemma FreeUnitMoves(c: Config, s: State, t: nat)
    requires LiveAt(s, t) && s.units[t].loc != RecoverBlocked && s.units[t].loc != Queued
    requires s.units[t].loc == SubmitBlocked || s.units[t].loc == RescheduleBlocked ==> !Full(c, s)
    ensures Enabled(c, s, NextOf(s.units[t], t)) && Internal(NextOf(s.units[t], t))
  {
  }

  lemma HeadLives(c: Config, s: State)
    requires Inv(c, s) && s.queue != [] && (s.mode.Running? || s.mode.Draining?)
    ensures LiveAt(s, s.queue[0])
  {
    HeadFacts(c, s);
    UnitFacts(c, s, s.queue[0]);
  }

  lemma BusyLives(c: Config, s: State, t: nat)
    requires Inv(c, s) && t in s.busy
    ensures LiveAt(s, t) && AtWorker(s.units[t].loc)
  {
    UnitFacts(c, s, t);
  }

  lemma QueueMoves(c: Config, s: State) returns (step: Step)
    requires Inv(c, s) && (s.mode.Running? || s.mode.Draining?) && s.queue != [] && c.workers > 0
    ensures Internal(step) && Enabled(c, s, step)
  {
    if |s.busy| < c.workers {
      HeadLives(c, s);
      step := Dequeue;
    } else {
      var t :| t in s.busy;
      BusyLives(c, s, t);
      FreeUnitMoves(c, s, t);
      step := NextOf(s.units[t], t);
    }
  }

  /** While some unit is carried, somebody can move: full queues and busy workers never deadlock. */
  lemma Progress(c: Config, s: State, t: nat) returns (step: Step)
    requires Inv(c, s) && (s.mode.Running? || s.mode.Draining?) && c.workers > 0 && c.maxSize > 0
    requires t in s.units && s.units[t].live
    ensures Internal(step) && Enabled(c, s, step)
  {
    UnitFacts(c, s, t);
    if s.queue != [] {
      step := QueueMoves(c, s);
    } else {
      NotQueued(c, s, t);
      FreeUnitMoves(c, s, t);
      step := NextOf(s.units[t], t);
    }
  }

  lemma NotQueued(c: Config, s: State, t: nat)
    requires Inv(c, s) && t in s.units && s.queue == []
    ensures s.units[t].loc != Queued
  {
  }

  // ----- drain

  ghost predicate InternalSteps(run: Run, i: nat, j: nat)
    requires j <= |run.steps|
  {
    forall m :: i <= m < j ==> Internal(run.steps[m])
  }

  /** How many `_handle` runs begin in steps `i`, .., `j - 1`. */
  function Handled(run: Run, i: nat, j: nat): nat
    requires i <= j <= |run.steps|
    decreases j
  {
    if i == j then 0 else Handled(run, i, j - 1) + if run.steps[j - 1].Dequeue? then 1 else 0
  }

  lemma LighterAt(c: Config, run: Run, m: nat)
    requires IsRun(c, run) && m < |run.steps| && Internal(run.steps[m])
    ensures
      var s, s' := run.states[m], run.states[m + 1];
      && Total(c, StepsLeft, s') < Total(c, StepsLeft, s)
      && Total(c, HandleRuns, s') + (if run.steps[m].Dequeue? then 1 else 0) <= Total(c, HandleRuns, s)
  {
    Reachable(c, run, m);
    assert StepAt(c, run, m);
    ActorFacts(c, run.states[m], run.steps[m]);
    StepLighter(c, run.states[m], run.steps[m]);
  }

  /**
    With no new submissions, no stop and no crash, the steps that remain and the `_handle` runs among
    them are bounded by the weight of the state.
  */
  lemma {:induction false} DrainBound(c: Config, run: Run, i: nat, j: nat)
    requires IsRun(c, run) && i <= j < |run.states| && InternalSteps(run, i, j)
    ensures (j - i) + Total(c, StepsLeft, run.states[j]) <= Total(c, StepsLeft, run.states[i])
    ensures Handled(run, i, j) + Total(c, HandleRuns, run.states[j]) <= Total(c, HandleRuns, run.states[i])
    decreases j
  {
    if i == j {
    } else {
      DrainBound(c, run, i, j - 1);
      LighterAt(c, run, j - 1);
    }
  }

  /** `drain` has nothing left to wait for. */
  ghost predicate Quiescent(s: State) {
    && s.queue == [] && s.unfinished == 0 && s.busy == {} && s.units == map[]
    && s.reg.inflight == map[] && s.db.rows == map[]
  }

  ghost predicate NobodyMoves(c: Config, s: State) {
    forall step :: Internal(step) ==> !Enabled(c, s, step)
  }

  /** When nobody can move, nobody carries anything; what stop abandoned still has its row and saved count. */
  lemma IdleMeansDone(c: Config, s: State)
    requires Inv(c, s) && (s.mode.Running? || s.mode.Draining?) && c.workers > 0 && c.maxSize > 0 && NobodyMoves(c, s)
    ensures forall t :: t in s.units ==> !s.units[t].live
  {
    if t :| t in s.units && s.units[t].live {
      var step := Progress(c, s, t);
      assert false;
    }
  }

  lemma EmptyMeansQuiescent(c: Config, s: State)
    requires Inv(c, s) && s.mode == Running && forall t :: t in s.units ==> !s.units[t].live
    ensures Quiescent(s)
  {
    assert s.units == map[];
    if s.queue != [] {
      HeadFacts(c, s);
      assert false;
    }
    if t :| t in s.busy {
      assert false;
    }
    if key :| key in s.reg.inflight {
      KeyFacts(c, s, key);
      assert false;
    }
  }

  /**
    Drain: in a running client without new submissions, every maximal sequence of steps is finite, of
    length at most the weight of its first state, with at most (retries left + 1) `_handle` runs per
    unit, and it ends with an empty queue, no reschedule, no inflight row and every caller answered.
  */
  lemma DrainEndsQuiescent(c: Config, run: Run, i: nat, j: nat)
    requires IsRun(c, run) && i <= j < |run.states| && InternalSteps(run, i, j) && c.workers > 0 && c.maxSize > 0
    requires run.states[i].mode == Running && NobodyMoves(c, run.states[j])
    ensures Quiescent(run.states[j])
    ensures forall f :: f in run.states[j].reg.futures ==> run.states[j].reg.futures[f] != Pending
    ensures j - i <= Total(c, StepsLeft, run.states[i]) && Handled(run, i, j) <= Total(c, Allowance, run.states[i])
  {
    DrainBound(c, run, i, j);
    RunsWithinAllowance(c, run.states[i].units, run.states[i].nextId);
    StaysRunning(c, run, i, j);
    Reachable(c, run, j);
    IdleMeansDone(c, run.states[j]);
    EmptyMeansQuiescent(c, run.states[j]);
    NobodyForgotten(c, run, j);
  }

  lemma {:induction false} StaysRunning(c: Config, run: Run, i: nat, j: nat)
    requires IsRun(c, run) && i <= j < |run.states| && InternalSteps(run, i, j)
    ensures run.states[j].mode == run.states[i].mode
    decreases j
  {
    if i == j {
    } else {
      StaysRunning(c, run, i, j - 1);
      assert StepAt(c, run, j - 1);
    }
  }

  // ----- the queue is first in, first out

  /** The head leaves at a dequeue; anything else leaves the queue as it is or appends to it. */
  ghost predicate QueueStep(s: State, step: Step, s': State) {
    if step.Dequeue? then s.queue != [] && s'.queue == s.queue[1..] && s.queue[0] in s'.busy
    else s.queue <= s'.queue && |s'.queue| <= |s.queue| + 1
  }

  lemma UnitQueues(c: Config, s: State, step: Step)
    requires Internal(step) && Enabled(c, s, step)
    ensures QueueStep(s, step, Apply(c, s, step))
  {
  }

  lemma OtherQueues(c: Config, s: State, step: Step)
    requires !Internal(step) && !step.Crash? && !step.Close? && Enabled(c, s, step)
    ensures QueueStep(s, step, Apply(c, s, step))
  {
  }

  lemma QueueStepAt(c: Config, run: Run, m: nat)
    requires IsRun(c, run) && m < |run.steps| && !run.steps[m].Crash? && !run.steps[m].Close?
    ensures QueueStep(run.states[m], run.steps[m], run.states[m + 1])
  {
    assert StepAt(c, run, m);
    if Internal(run.steps[m]) {
      UnitQueues(c, run.states[m], run.steps[m]);
    } else {
      OtherQueues(c, run.states[m], run.steps[m]);
    }
  }

  /** After `d` dequeues the first `d` items are gone and the others still come first, in their order. */
  lemma {:induction false} FirstInFirstOut(c: Config, run: Run, i: nat, j: nat)
    requires IsRun(c, run) && i <= j < |run.states| && SameProcess(run, i, j)
    requires Handled(run, i, j) <= |run.states[i].queue|
    ensures run.states[i].queue[Handled(run, i, j)..] <= run.states[j].queue
    decreases j
  {
    if i == j {
    } else {
      FirstInFirstOut(c, run, i, j - 1);
      QueueStepAt(c, run, j - 1);
    }
  }
}
