/** The metrics counters are conserved. */
module Counting {
  import opened Models
  import opened Dedup
  import opened Lifecycle
  import opened Invariant
  import opened Runs
  import opened Measures
  import opened Drain

  /**
    Every started request succeeded, failed terminally, or is still undecided, abandoned ones included;
    the retry and DLQ counters count the same events as the failure counters.
  */
  ghost predicate CountersGood(c: Config, s: State) {
    && s.counters.started == s.counters.succeeded + s.counters.failedTerminal + Total(c, Undecided, s)
    && s.counters.retriesPerformed == s.counters.failedRetryable
    && s.counters.dlqPushes == s.counters.failedTerminal
  }

  /** What one step adds to `started` minus the decided requests. */
  function Net(n: Counters): int { n.started - n.succeeded - n.failedTerminal }

  ghost predicate TwinsGrow(s: State, s': State) {
    && s'.counters.retriesPerformed - s.counters.retriesPerformed
       == s'.counters.failedRetryable - s.counters.failedRetryable
    && s'.counters.dlqPushes - s.counters.dlqPushes == s'.counters.failedTerminal - s.counters.failedTerminal
  }

  ghost predicate CountsActor(c: Config, s: State, step: Step, t: nat)
    requires Enabled(c, s, step)
  {
    var s' := Apply(c, s, step);
    && TwinsGrow(s, s')
    && Net(s'.counters) - Net(s.counters) == WeightAt(c, Undecided, s'.units, t) - WeightAt(c, Undecided, s.units, t)
  }

  lemma VerdictCounts(c: Config, s: State, step: Step)
    requires (step.Reject? || step.Reply?) && Enabled(c, s, step)
    ensures CountsActor(c, s, step, step.t)
  {
  }

  lemma DeadCounts(c: Config, s: State, step: Step)
    requires (step.EraseRow? || step.PushDead?) && Enabled(c, s, step)
    ensures CountsActor(c, s, step, step.t)
  {
  }

  lemma AttemptCounts(c: Config, s: State, step: Step)
    requires (step.Execute? || step.BumpRetry?) && Enabled(c, s, step)
    ensures CountsActor(c, s, step, step.t)
  {
  }

  lemma TouchCounts(c: Config, s: State, step: Step)
    requires IsWork(step) && Enabled(c, s, step)
    ensures CountsActor(c, s, step, step.t)
  {
    if step.EraseRow? || step.PushDead? {
      DeadCounts(c, s, step);
    } else {
      AttemptCounts(c, s, step);
    }
  }

  lemma SubmitterCounts(c: Config, s: State, step: Step)
    requires (step.Upsert? || step.SubmitResume?) && Enabled(c, s, step)
    ensures CountsActor(c, s, step, step.t)
  {
  }

  lemma PutCounts(c: Config, s: State, step: Step)
    requires (step.Put? || step.Wake?) && Enabled(c, s, step)
    ensures CountsActor(c, s, step, step.t)
  {
  }

  lemma OwnerCounts(c: Config, s: State, step: Step)
    requires (step.Upsert? || step.SubmitResume? || step.Put? || step.Wake?) && Enabled(c, s, step)
    ensures CountsActor(c, s, step, step.t)
  {
    if step.Upsert? || step.SubmitResume? {
      SubmitterCounts(c, s, step);
    } else {
      PutCounts(c, s, step);
    }
  }

  lemma SettleCounts(c: Config, s: State, step: Step)
    requires (step.Resolve? || step.Fail?) && Enabled(c, s, step)
    ensures CountsActor(c, s, step, step.t)
  {
  }

  lemma DequeueCounts(c: Config, s: State)
    requires Enabled(c, s, Dequeue) && s.units[s.queue[0]].loc == Queued
    ensures CountsActor(c, s, Dequeue, s.queue[0])
  {
  }

  lemma RescheduleCounts(c: Config, s: State, t: nat)
    requires Enabled(c, s, Reschedule(t))
    ensures CountsActor(c, s, Reschedule(t), t)
  {
  }

  lemma LeaveCounts(c: Config, s: State, step: Step)
    requires (step.Dequeue? || step.Resolve? || step.Fail? || step.Reschedule?) && Enabled(c, s, step)
    requires step.Dequeue? ==> s.units[s.queue[0]].loc == Queued
    ensures CountsActor(c, s, step, Actor(s, step))
  {
    if step.Resolve? || step.Fail? {
      SettleCounts(c, s, step);
    } else if step.Dequeue? {
      DequeueCounts(c, s);
    } else {
      RescheduleCounts(c, s, step.t);
    }
  }

  lemma ActorCounts(c: Config, s: State, step: Step)
    requires Internal(step) && Enabled(c, s, step) && ActorGood(c, s, step)
    ensures CountsActor(c, s, step, Actor(s, step))
  {
    if step.Reject? || step.Reply? {
      VerdictCounts(c, s, step);
    } else if step.Upsert? || step.SubmitResume? || step.Put? || step.Wake? {
      OwnerCounts(c, s, step);
    } else if step.Dequeue? || step.Resolve? || step.Fail? || step.Reschedule? {
      LeaveCounts(c, s, step);
    } else {
      TouchCounts(c, s, step);
    }
  }

  lemma KeepInternal(c: Config, s: State, step: Step)
    requires Internal(step) && Enabled(c, s, step) && ActorGood(c, s, step) && CountersGood(c, s)
    ensures CountersGood(c, Apply(c, s, step))
  {
    ActsAlone(c, s, step);
    ActorCounts(c, s, step);
    SumChange(c, Undecided, s.units, Apply(c, s, step).units, s.nextId, Actor(s, step));
  }

  ghost predicate AddsUnit(c: Config, s: State, s': State) {
    && OnlyAt(s.units, s'.units, s.nextId) && TwinsGrow(s, s')
    && Net(s'.counters) - Net(s.counters) == WeightAt(c, Undecided, s'.units, s.nextId)
    && (s'.nextId == s.nextId + 1 || (s'.nextId == s.nextId && s'.units == s.units))
  }

  lemma SubmitAdds(c: Config, s: State, req: Request)
    requires Enabled(c, s, Submit(req)) && s.nextId !in s.units
    ensures AddsUnit(c, s, Apply(c, s, Submit(req)))
  {
  }

  lemma SkipAdds(c: Config, s: State)
    requires Enabled(c, s, RecoverNext) && IsPending(s.reg, s.mode.remaining[0].key) && s.nextId !in s.units
    ensures AddsUnit(c, s, Apply(c, s, RecoverNext))
  {
  }

  lemma PickAdds(c: Config, s: State)
    requires Enabled(c, s, RecoverNext) && !IsPending(s.reg, s.mode.remaining[0].key) && s.nextId !in s.units
    ensures AddsUnit(c, s, Apply(c, s, RecoverNext))
  {
  }

  lemma RecoverAdds(c: Config, s: State)
    requires Enabled(c, s, RecoverNext) && s.nextId !in s.units
    ensures AddsUnit(c, s, Apply(c, s, RecoverNext))
  {
    if IsPending(s.reg, s.mode.remaining[0].key) {
      SkipAdds(c, s);
    } else {
      PickAdds(c, s);
    }
  }

  /** A submission or a recovered row adds at most the next unit. */
  lemma NewUnit(c: Config, s: State, step: Step)
    requires (step.Submit? || step.RecoverNext?) && Enabled(c, s, step) && s.nextId !in s.units
    ensures AddsUnit(c, s, Apply(c, s, step))
  {
    if step.RecoverNext? {
      RecoverAdds(c, s);
    } else {
      SubmitAdds(c, s, step.req);
    }
  }

  lemma KeepNewUnit(c: Config, s: State, step: Step)
    requires (step.Submit? || step.RecoverNext?) && Enabled(c, s, step) && s.nextId !in s.units && CountersGood(c, s)
    ensures CountersGood(c, Apply(c, s, step))
  {
    var s' := Apply(c, s, step);
    NewUnit(c, s, step);
    SumChange(c, Undecided, s.units, s'.units, s'.nextId, s.nextId);
  }

  lemma {:induction false} SumAbandon(c: Config, units: Units, busy: set<nat>, n: nat)
    ensures Sum(c, Undecided, Abandon(units, busy), n) == Sum(c, Undecided, units, n)
  {
    if n == 0 {
    } else {
      SumAbandon(c, units, busy, n - 1);
    }
  }

  lemma {:induction false} SumEmpty(c: Config, n: nat)
    ensures Sum(c, Undecided, map[], n) == 0
  {
    if n == 0 {
    } else {
      SumEmpty(c, n - 1);
    }
  }

  lemma KeepPutBlocked(c: Config, s: State)
    requires Enabled(c, s, RecoverPut) && CountersGood(c, s)
    ensures CountersGood(c, Apply(c, s, RecoverPut))
  {
    var t := s.mode.blocked.value;
    SumChange(c, Undecided, s.units, Apply(c, s, RecoverPut).units, s.nextId, t);
  }

  lemma KeepHalted(c: Config, s: State)
    requires Enabled(c, s, DrainCheck) && CountersGood(c, s)
    ensures CountersGood(c, Apply(c, s, DrainCheck))
  {
    if PendingTasks(s) == {} {
      HaltShape(s);
      SumAbandon(c, s.units, s.busy, s.nextId);
    }
  }

  lemma KeepOutside(c: Config, s: State, step: Step)
    requires Enabled(c, s, step) && CountersGood(c, s)
    requires !Internal(step) && !step.Submit? && !step.RecoverNext?
    ensures CountersGood(c, Apply(c, s, step))
  {
    if step.RecoverPut? {
      KeepPutBlocked(c, s);
    } else if step.DrainCheck? {
      KeepHalted(c, s);
    } else if step.Crash? || step.Close? {
      SumEmpty(c, s.nextId);
    }
  }

  lemma NextIdFree(c: Config, s: State)
    requires Inv(c, s)
    ensures s.nextId !in s.units
  {
  }

  lemma CountersKept(c: Config, run: Run, m: nat)
    requires IsRun(c, run) && m < |run.steps| && CountersGood(c, run.states[m])
    ensures CountersGood(c, run.states[m + 1])
  {
    var s, step := run.states[m], run.steps[m];
    Reachable(c, run, m);
    assert StepAt(c, run, m);
    if Internal(step) {
      ActorFacts(c, s, step);
      KeepInternal(c, s, step);
    } else if step.Submit? || step.RecoverNext? {
      NextIdFree(c, s);
      KeepNewUnit(c, s, step);
    } else {
      KeepOutside(c, s, step);
    }
  }

  /** The counters are conserved in every reachable state. */
  lemma {:induction false} CountersConserved(c: Config, run: Run, i: nat)
    requires IsRun(c, run) && i < |run.states|
    ensures CountersGood(c, run.states[i])
  {
    if i == 0 {
      SumEmpty(c, run.states[0].nextId);
    } else {
      CountersConserved(c, run, i - 1);
      CountersKept(c, run, i - 1);
    }
  }

  /** A `get_or_create` call that finds its key pending, or one that does not. */
  predicate LooksUp(c: Config, s: State, step: Step, pending: bool) {
    || (step.Submit? && IsPending(s.reg, IdempotencyKey(c.digest, step.req)) == pending)
    || (step.RecoverNext? && s.mode.Starting? && s.mode.remaining != []
        && IsPending(s.reg, s.mode.remaining[0].key) == pending)
  }

  function LookupOne(c: Config, s: State, step: Step, pending: bool): nat {
    if LooksUp(c, s, step, pending) then 1 else 0
  }

  /** How many such calls there are in steps `i`, .., `j - 1`. */
  function Lookups(c: Config, run: Run, i: nat, j: nat, pending: bool): nat
    requires i <= j < |run.states| == |run.steps| + 1
    decreases j
  {
    if i == j then 0
    else Lookups(c, run, i, j - 1, pending) + LookupOne(c, run.states[j - 1], run.steps[j - 1], pending)
  }

  ghost predicate LookupStep(c: Config, s: State, step: Step, s': State) {
    && s'.reg.dedupHits == s.reg.dedupHits + LookupOne(c, s, step, true)
    && s'.reg.uniqueRequests == s.reg.uniqueRequests + LookupOne(c, s, step, false)
  }

  lemma UnitLooksUp(c: Config, s: State, step: Step)
    requires (OnUnit(step) || step.Dequeue?) && Enabled(c, s, step)
    ensures LookupStep(c, s, step, Apply(c, s, step))
  {
  }

  lemma OtherLooksUp(c: Config, s: State, step: Step)
    requires !OnUnit(step) && !step.Dequeue? && !step.Crash? && !step.Close? && Enabled(c, s, step)
    ensures LookupStep(c, s, step, Apply(c, s, step))
  {
  }

  lemma LookupCountedAt(c: Config, run: Run, m: nat)
    requires IsRun(c, run) && m < |run.steps| && !run.steps[m].Crash? && !run.steps[m].Close?
    ensures LookupStep(c, run.states[m], run.steps[m], run.states[m + 1])
  {
    assert StepAt(c, run, m);
    if OnUnit(run.steps[m]) || run.steps[m].Dequeue? {
      UnitLooksUp(c, run.states[m], run.steps[m]);
    } else {
      OtherLooksUp(c, run.states[m], run.steps[m]);
    }
  }

  lemma StartsUncounted(c: Config, run: Run, i: nat)
    requires IsRun(c, run) && i < |run.steps| && run.steps[i].Start?
    ensures run.states[i].reg.uniqueRequests == 0 && run.states[i].reg.dedupHits == 0
  {
    Reachable(c, run, i);
    assert StepAt(c, run, i);
  }

  /** Since a start, the calls that found their key pending were dedup hits, and the others were unique. */
  lemma {:induction false} LookupsCounted(c: Config, run: Run, i: nat, j: nat)
    requires IsRun(c, run) && i < j < |run.states| && run.steps[i].Start?
    requires forall m :: i <= m < j ==> !run.steps[m].Crash? && !run.steps[m].Close?
    ensures run.states[j].reg.dedupHits == Lookups(c, run, i, j, true)
    ensures run.states[j].reg.uniqueRequests == Lookups(c, run, i, j, false)
    decreases j
  {
    LookupCountedAt(c, run, j - 1);
    if j == i + 1 {
      StartsUncounted(c, run, i);
    } else {
      LookupsCounted(c, run, i, j - 1);
    }
  }

  // ----- what the counters count

  /** A failure worth another try. */
  predicate FailsTransiently(step: Step) {
    step.Reject? || (step.Reply? && (step.outcome.Throttled? || step.outcome.Transient?))
  }

  predicate AttemptsLeft(c: Config, s: State, t: nat) { t in s.units && s.units[t].attempt < c.maxRetries }

  datatype Metric = Starts | Successes | RetryableFailures | TerminalFailures

  /** Whether a step is an event of the metric: told from the step and the answer, not from the counters. */
  predicate Counts(c: Config, s: State, step: Step, metric: Metric) {
    match metric
    case Starts =>
      || step.SubmitResume?
      || (step.RecoverNext? && s.mode.Starting? && s.mode.remaining != []
          && !IsPending(s.reg, s.mode.remaining[0].key))
    case Successes => step.Reply? && step.outcome.Success?
    case RetryableFailures => FailsTransiently(step) && AttemptsLeft(c, s, step.t)
    case TerminalFailures =>
      || (FailsTransiently(step) && !AttemptsLeft(c, s, step.t))
      || (step.Reply? && step.outcome.Permanent?)
  }

  function CountOne(c: Config, s: State, step: Step, metric: Metric): nat {
    if Counts(c, s, step, metric) then 1 else 0
  }

  function Counter(n: Counters, metric: Metric): nat {
    match metric
    case Starts => n.started
    case Successes => n.succeeded
    case RetryableFailures => n.failedRetryable
    case TerminalFailures => n.failedTerminal
  }

  ghost predicate CountsStep(c: Config, s: State, step: Step, metric: Metric, s': State) {
    Counter(s'.counters, metric) == Counter(s.counters, metric) + CountOne(c, s, step, metric)
  }

  lemma VerdictTallied(c: Config, s: State, step: Step, metric: Metric)
    requires IsVerdict(step) && Enabled(c, s, step)
    ensures CountsStep(c, s, step, metric, Apply(c, s, step))
  {
  }

  lemma UnitTallied(c: Config, s: State, step: Step, metric: Metric)
    requires (OnUnit(step) || step.Dequeue?) && !IsVerdict(step) && Enabled(c, s, step)
    ensures CountsStep(c, s, step, metric, Apply(c, s, step))
  {
  }

  lemma OtherTallied(c: Config, s: State, step: Step, metric: Metric)
    requires !OnUnit(step) && !step.Dequeue? && !step.Crash? && !step.Close? && Enabled(c, s, step)
    ensures CountsStep(c, s, step, metric, Apply(c, s, step))
  {
  }

  /** How many events of the metric there are in steps `i`, .., `j - 1`. */
  function EventsIn(c: Config, run: Run, i: nat, j: nat, metric: Metric): nat
    requires i <= j < |run.states| == |run.steps| + 1
    decreases j
  {
    if i == j then 0
    else EventsIn(c, run, i, j - 1, metric) + CountOne(c, run.states[j - 1], run.steps[j - 1], metric)
  }

  lemma TalliedAt(c: Config, run: Run, m: nat, metric: Metric)
    requires IsRun(c, run) && m < |run.steps| && !run.steps[m].Crash? && !run.steps[m].Close?
    ensures CountsStep(c, run.states[m], run.steps[m], metric, run.states[m + 1])
  {
    var s, step := run.states[m], run.steps[m];
    assert StepAt(c, run, m);
    if IsVerdict(step) {
      VerdictTallied(c, s, step, metric);
    } else if OnUnit(step) || step.Dequeue? {
      UnitTallied(c, s, step, metric);
    } else {
      OtherTallied(c, s, step, metric);
    }
  }

  lemma StartsFromZero(c: Config, run: Run, i: nat, metric: Metric)
    requires IsRun(c, run) && i < |run.steps| && run.steps[i].Start?
    ensures Counter(run.states[i].counters, metric) == 0
  {
    Reachable(c, run, i);
    assert StepAt(c, run, i);
  }

  /** Since a start, each counter has counted exactly its own events. */
  lemma {:induction false} CountersCount(c: Config, run: Run, i: nat, j: nat, metric: Metric)
    requires IsRun(c, run) && i < j < |run.states| && run.steps[i].Start?
    requires forall m :: i <= m < j ==> !run.steps[m].Crash? && !run.steps[m].Close?
    ensures Counter(run.states[j].counters, metric) == EventsIn(c, run, i, j, metric)
    decreases j
  {
    TalliedAt(c, run, j - 1, metric);
    if j == i + 1 {
      StartsFromZero(c, run, i, metric);
    } else {
      CountersCount(c, run, i, j - 1, metric);
    }
  }
}
