/** Futures settle once, with the outcome on record, and after the record is complete. */
module Settlement {
  import opened Models
  import opened Storage
  import opened Dedup
  import opened Lifecycle
  import opened Invariant
  import opened Runs

  /** A failure that is worth another try: turned away by the breaker, a 429, or another retryable answer. */
  predicate IsTransient(step: Step, t: nat) {
    step == Reject(t) || step == Reply(t, Throttled) || step == Reply(t, Transient)
  }

  /** What a step leaves on record about unit `t`; an attempt number names one run of `_handle`. */
  datatype Mark =
    | Took(step: Step)
    | Retried(t: nat, attempt: nat)     // a transient failure with attempts left
    | Exhausted(t: nat, attempt: nat)   // a transient failure without
    | Refused(t: nat, attempt: nat)     // a permanent failure

  ghost predicate Leaves(c: Config, s: State, step: Step, mark: Mark) {
    match mark
    case Took(taken) => step == taken
    case Retried(t, a) => IsTransient(step, t) && t in s.units && s.units[t].attempt == a < c.maxRetries
    case Exhausted(t, a) => IsTransient(step, t) && t in s.units && s.units[t].attempt == a >= c.maxRetries
    case Refused(t, a) => step == Reply(t, Permanent) && t in s.units && s.units[t].attempt == a
  }

  /** The marks of `plan` were left in this order, among others, before `j`. */
  ghost predicate InOrder(c: Config, run: Run, j: nat, plan: seq<Mark>)
    requires j <= |run.steps| && j <= |run.states|
    decreases |plan|
  {
    if plan == [] then true
    else exists m :: 0 <= m < j && Leaves(c, run.states[m], run.steps[m], plan[|plan| - 1])
                     && InOrder(c, run, m, plan[..|plan| - 1])
  }

  lemma LaterToo(c: Config, run: Run, i: nat, j: nat, plan: seq<Mark>)
    requires i <= j <= |run.steps| && j <= |run.states| && InOrder(c, run, i, plan)
    ensures InOrder(c, run, j, plan)
  {
  }

  lemma Appended(c: Config, run: Run, j: nat, plan: seq<Mark>, mark: Mark)
    requires j < |run.steps| && j < |run.states| && InOrder(c, run, j, plan)
    requires Leaves(c, run.states[j], run.steps[j], mark)
    ensures InOrder(c, run, j + 1, plan + [mark])
  {
    var longer := plan + [mark];
    assert longer[..|longer| - 1] == plan;
  }

  lemma Extended(c: Config, run: Run, j: nat, plan: seq<Mark>)
    requires j < |run.steps| && j < |run.states| && plan != [] && InOrder(c, run, j, plan[..|plan| - 1])
    requires Leaves(c, run.states[j], run.steps[j], plan[|plan| - 1])
    ensures InOrder(c, run, j + 1, plan)
  {
  }

  /** Why a request is dead-lettered: the error names the verdict. */
  function Verdict(t: nat, error: ErrorKind, attempt: nat): Mark {
    if error == NonRetryableError then Refused(t, attempt) else Exhausted(t, attempt)
  }

  /** What must have happened to unit `t` for it to be where it is. */
  function Trail(t: nat, u: Unit): seq<Mark> {
    match u.loc
    case SuccessNoted(response) => [Took(Reply(t, Success(response)))]
    case SuccessErased(response) => [Took(Reply(t, Success(response))), Took(EraseRow(t))]
    case RetryNoted => [Retried(t, u.attempt)]
    case RetryWritten => [Retried(t, u.attempt), Took(BumpRetry(t))]
    case DeadNoted(error) => [Verdict(t, error, u.attempt)]
    case DeadPushed(error) => [Verdict(t, error, u.attempt), Took(PushDead(t))]
    case DeadErased(error) => [Verdict(t, error, u.attempt), Took(PushDead(t)), Took(EraseRow(t))]
    case _ => []
  }

  /** What must have happened to unit `t`, at its attempt `attempt`, for its future to be settled. */
  function SettledTrail(t: nat, outcome: Future, attempt: nat): seq<Mark> {
    match outcome
    case Pending => []
    case Resolved(response) => [Took(Reply(t, Success(response))), Took(EraseRow(t)), Took(Resolve(t))]
    case Failed(error) => [Verdict(t, error, attempt), Took(PushDead(t)), Took(EraseRow(t)), Took(Fail(t))]
  }

  /** The trail after the step is empty, or the one before, or the one before and what the step left. */
  ghost predicate Grows(c: Config, t: nat, s: State, step: Step, s': State)
    requires t in s'.units
  {
    var trail := Trail(t, s'.units[t]);
    var n := |trail| - 1;
    trail == [] || (t in s.units && (trail == Trail(t, s.units[t])
                                     || (trail[..n] == Trail(t, s.units[t]) && Leaves(c, s, step, trail[n]))))
  }

  lemma WorkGrows(c: Config, s: State, step: Step, t: nat)
    requires IsWork(step) && Enabled(c, s, step) && t in Apply(c, s, step).units
    ensures Grows(c, t, s, step, Apply(c, s, step))
  {
  }

  lemma VerdictGrows(c: Config, s: State, step: Step, t: nat)
    requires IsVerdict(step) && Enabled(c, s, step) && t in Apply(c, s, step).units
    ensures Grows(c, t, s, step, Apply(c, s, step))
  {
  }

  lemma RestGrows(c: Config, s: State, step: Step, t: nat)
    requires OnUnit(step) && !IsWork(step) && !IsVerdict(step) && Enabled(c, s, step) && t in Apply(c, s, step).units
    ensures Grows(c, t, s, step, Apply(c, s, step))
  {
  }

  lemma TrailGrows(c: Config, s: State, step: Step, t: nat)
    requires Enabled(c, s, step) && OnUnit(step) && t in Apply(c, s, step).units
    ensures Grows(c, t, s, step, Apply(c, s, step))
  {
    if IsWork(step) {
      WorkGrows(c, s, step, t);
    } else if IsVerdict(step) {
      VerdictGrows(c, s, step, t);
    } else {
      RestGrows(c, s, step, t);
    }
  }

  /** A unit is what it was but for `live`, or at a place that has no trail. */
  predicate SameOrFresh(s: State, s': State, t: nat)
    requires t in s'.units
  {
    || (t in s.units && s'.units[t].loc == s.units[t].loc && s'.units[t].attempt == s.units[t].attempt)
    || BeforeWorkers(s'.units[t].loc) || s'.units[t].loc == Handling
  }

  lemma SubmitFreshens(c: Config, s: State, req: Request, t: nat)
    requires Enabled(c, s, Submit(req)) && t in Apply(c, s, Submit(req)).units
    ensures SameOrFresh(s, Apply(c, s, Submit(req)), t)
  {
  }

  lemma RecoveryFreshens(c: Config, s: State, t: nat)
    requires Enabled(c, s, RecoverNext) && t in Apply(c, s, RecoverNext).units
    ensures SameOrFresh(s, Apply(c, s, RecoverNext), t)
  {
  }

  lemma CheckFreshens(c: Config, s: State, t: nat)
    requires Enabled(c, s, DrainCheck) && t in ApplyDrainCheck(s).units
    ensures SameOrFresh(s, ApplyDrainCheck(s), t)
  {
  }

  lemma RestFreshens(c: Config, s: State, step: Step, t: nat)
    requires !OnUnit(step) && !step.Submit? && !step.RecoverNext? && !step.DrainCheck? && Enabled(c, s, step)
    requires t in Apply(c, s, step).units
    ensures SameOrFresh(s, Apply(c, s, step), t)
  {
  }

  lemma FreshGrows(c: Config, s: State, step: Step, s': State, t: nat)
    requires t in s'.units && SameOrFresh(s, s', t)
    ensures Grows(c, t, s, step, s')
  {
  }

  lemma OutsideGrows(c: Config, s: State, step: Step, t: nat)
    requires !OnUnit(step) && Enabled(c, s, step) && t in Apply(c, s, step).units
    ensures Grows(c, t, s, step, Apply(c, s, step))
  {
    if step.Submit? {
      SubmitFreshens(c, s, step.req, t);
    } else if step.RecoverNext? {
      RecoveryFreshens(c, s, t);
    } else if step.DrainCheck? {
      CheckFreshens(c, s, t);
    } else {
      RestFreshens(c, s, step, t);
    }
    FreshGrows(c, s, step, Apply(c, s, step), t);
  }

  lemma TrailGrowsAt(c: Config, run: Run, j: nat, t: nat)
    requires IsRun(c, run) && j < |run.steps| && t in run.states[j + 1].units
    ensures Grows(c, t, run.states[j], run.steps[j], run.states[j + 1])
  {
    assert StepAt(c, run, j);
    if OnUnit(run.steps[j]) {
      TrailGrows(c, run.states[j], run.steps[j], t);
    } else {
      OutsideGrows(c, run.states[j], run.steps[j], t);
    }
  }

  lemma TrailNext(c: Config, run: Run, m: nat, before: seq<Mark>, trail: seq<Mark>)
    requires m < |run.steps| && m < |run.states| && InOrder(c, run, m, before) && trail != []
    requires trail == before
          || (trail[..|trail| - 1] == before && Leaves(c, run.states[m], run.steps[m], trail[|trail| - 1]))
    ensures InOrder(c, run, m + 1, trail)
  {
    if trail == before {
      LaterToo(c, run, m, m + 1, before);
    } else {
      Extended(c, run, m, trail);
    }
  }

  lemma {:induction false} TrailTaken(c: Config, run: Run, j: nat, t: nat)
    requires IsRun(c, run) && j < |run.states| && t in run.states[j].units
    ensures InOrder(c, run, j, Trail(t, run.states[j].units[t]))
  {
    var trail := Trail(t, run.states[j].units[t]);
    if j == 0 || trail == [] {
    } else {
      TrailGrowsAt(c, run, j - 1, t);
      TrailTaken(c, run, j - 1, t);
      TrailNext(c, run, j - 1, Trail(t, run.states[j - 1].units[t]), trail);
    }
  }

  /** Some step before `j` left this mark. */
  ghost predicate Left(c: Config, run: Run, j: nat, mark: Mark)
    requires j <= |run.steps| && j <= |run.states|
  {
    exists m :: 0 <= m < j && Leaves(c, run.states[m], run.steps[m], mark)
  }

  lemma {:induction false} FirstLeft(c: Config, run: Run, j: nat, plan: seq<Mark>)
    requires j <= |run.steps| && j <= |run.states| && plan != [] && InOrder(c, run, j, plan)
    ensures Left(c, run, j, plan[0])
    decreases |plan|
  {
    var n := |plan| - 1;
    var m :| 0 <= m < j && Leaves(c, run.states[m], run.steps[m], plan[n]) && InOrder(c, run, m, plan[..n]);
    if n > 0 {
      FirstLeft(c, run, m, plan[..n]);
    }
  }

  /**
    The answer decides.  A retry is recorded only after a transient failure in the same run of `_handle`,
    with attempts left; a request is dead-lettered as exhausted only after a transient failure without, and
    as not retryable only after a permanent one: with attempts left, that alone does it.
  */
  lemma AnswersDecide(c: Config, run: Run, j: nat)
    requires IsRun(c, run) && j < |run.steps|
    ensures run.steps[j].BumpRetry? ==>
      var t := run.steps[j].t;
      t in run.states[j].units && Left(c, run, j, Retried(t, run.states[j].units[t].attempt))
    ensures run.steps[j].PushDead? ==>
      var t := run.steps[j].t;
      && t in run.states[j].units && run.states[j].units[t].loc.DeadNoted?
      && Left(c, run, j, Verdict(t, run.states[j].units[t].loc.error, run.states[j].units[t].attempt))
      && (run.states[j].units[t].attempt < c.maxRetries ==>
            Left(c, run, j, Refused(t, run.states[j].units[t].attempt)))
  {
    assert StepAt(c, run, j);
    if run.steps[j].BumpRetry? || run.steps[j].PushDead? {
      var t := run.steps[j].t;
      TrailTaken(c, run, j, t);
      FirstLeft(c, run, j, Trail(t, run.states[j].units[t]));
    }
  }

  /** Between `s` and `s'`, future `f` was settled by the worker of its own unit, whose trail is complete. */
  predicate SettledBy(c: Config, s: State, step: Step, s': State, f: nat)
    requires f in s'.reg.futures
  {
    || (f in s.reg.futures && s.reg.futures[f] == s'.reg.futures[f])
    || ((step == Resolve(f) || step == Fail(f)) && f in s.units && KeyOf(c, s.units[f]) !in s.db.rows
        && SettledTrail(f, s'.reg.futures[f], s.units[f].attempt) == Trail(f, s.units[f]) + [Took(step)])
  }

  lemma SettlesOwn(c: Config, s: State, step: Step, f: nat)
    requires (step.Resolve? || step.Fail?) && Enabled(c, s, step) && UnitGood(c, s, step.t)
    requires f in Apply(c, s, step).reg.futures && Apply(c, s, step).reg.futures[f] != Pending
    ensures SettledBy(c, s, step, Apply(c, s, step), f)
  {
  }

  /** A future that is settled after the step was settled before, with the same outcome. */
  predicate SettlesNothing(s: State, s': State, f: nat) {
    f in s'.reg.futures && s'.reg.futures[f] != Pending ==> f in s.reg.futures && s'.reg.futures[f] == s.reg.futures[f]
  }

  lemma MoveSettlesNone(c: Config, s: State, step: Step, f: nat)
    requires OnUnit(step) && !IsTouch(c, s, step) && !step.Resolve? && !step.Fail? && Enabled(c, s, step)
    ensures SettlesNothing(s, Apply(c, s, step), f)
  {
  }

  lemma OthersSettleNone(c: Config, s: State, step: Step, f: nat)
    requires !OnUnit(step) && Enabled(c, s, step)
    ensures SettlesNothing(s, Apply(c, s, step), f)
  {
  }

  lemma SettlesNone(c: Config, s: State, step: Step, f: nat)
    requires !step.Resolve? && !step.Fail? && Enabled(c, s, step)
    ensures SettlesNothing(s, Apply(c, s, step), f)
  {
    if IsTouch(c, s, step) {
      TouchFrame(c, s, step);
    } else if OnUnit(step) {
      MoveSettlesNone(c, s, step, f);
    } else {
      OthersSettleNone(c, s, step, f);
    }
  }

  lemma SettlerFacts(c: Config, run: Run, j: nat)
    requires IsRun(c, run) && j < |run.steps| && (run.steps[j].Resolve? || run.steps[j].Fail?)
    ensures UnitGood(c, run.states[j], run.steps[j].t)
  {
    SettlerPresent(c, run, j);
    Reachable(c, run, j);
    UnitFacts(c, run.states[j], run.steps[j].t);
  }

  lemma SettlerPresent(c: Config, run: Run, j: nat)
    requires IsRun(c, run) && j < |run.steps| && (run.steps[j].Resolve? || run.steps[j].Fail?)
    ensures run.steps[j].t in run.states[j].units
  {
    assert StepAt(c, run, j);
  }

  lemma SettlesAt(c: Config, run: Run, j: nat, f: nat)
    requires IsRun(c, run) && j < |run.steps|
    requires f in run.states[j + 1].reg.futures && run.states[j + 1].reg.futures[f] != Pending
    ensures SettledBy(c, run.states[j], run.steps[j], run.states[j + 1], f)
  {
    assert StepAt(c, run, j);
    if run.steps[j].Resolve? || run.steps[j].Fail? {
      SettlerFacts(c, run, j);
      SettlesOwn(c, run.states[j], run.steps[j], f);
    } else {
      SettlesNone(c, run.states[j], run.steps[j], f);
    }
  }

  ghost predicate SettledInOrder(c: Config, run: Run, j: nat, f: nat, outcome: Future)
    requires j <= |run.steps| && j <= |run.states|
  {
    exists attempt: nat :: InOrder(c, run, j, SettledTrail(f, outcome, attempt))
  }

  /**
    A result is seen only after the HTTP success that carried it and then the delete of the row; an error
    only after the verdict it names, then the DLQ push and then the delete of the row.
  */
  lemma {:induction false} SettlementFollowsRecord(c: Config, run: Run, j: nat, f: nat)
    requires IsRun(c, run) && j < |run.states| && f in run.states[j].reg.futures
    ensures SettledInOrder(c, run, j, f, run.states[j].reg.futures[f])
  {
    var outcome := run.states[j].reg.futures[f];
    if outcome == Pending {
      assert InOrder(c, run, j, SettledTrail(f, outcome, 0));
    } else {
      NoFutureAtBoot(c, run);
      SettlesAt(c, run, j - 1, f);
      var s, step := run.states[j - 1], run.steps[j - 1];
      if f in s.reg.futures && s.reg.futures[f] == outcome {
        SettlementFollowsRecord(c, run, j - 1, f);
        var attempt: nat :| InOrder(c, run, j - 1, SettledTrail(f, outcome, attempt));
        LaterToo(c, run, j - 1, j, SettledTrail(f, outcome, attempt));
      } else {
        TrailTaken(c, run, j - 1, f);
        Appended(c, run, j - 1, Trail(f, s.units[f]), Took(step));
        assert InOrder(c, run, j, SettledTrail(f, outcome, s.units[f].attempt));
      }
    }
  }

  lemma NoFutureAtBoot(c: Config, run: Run)
    requires IsRun(c, run)
    ensures run.states[0].reg.futures == map[]
  {
  }

  // ----- every future settles at most once, and callers that come before share it

  ghost predicate SameProcess(run: Run, i: nat, j: nat)
    requires j <= |run.steps|
  {
    forall m :: i <= m < j ==> !run.steps[m].Crash? && !run.steps[m].Close?
  }

  /** Future `f` is there after the step, and as it was if it was settled. */
  predicate KeepsFuture(s: State, s': State, f: nat) {
    f in s.reg.futures ==>
      f in s'.reg.futures && (s.reg.futures[f] != Pending ==> s'.reg.futures[f] == s.reg.futures[f])
  }

  lemma MoveKeepsFuture(c: Config, s: State, step: Step, f: nat)
    requires OnUnit(step) && !IsTouch(c, s, step) && Enabled(c, s, step)
    ensures KeepsFuture(s, Apply(c, s, step), f)
  {
  }

  lemma OthersKeepFuture(c: Config, s: State, step: Step, f: nat)
    requires !OnUnit(step) && Enabled(c, s, step) && !step.Crash? && !step.Close? && f < s.nextId
    ensures KeepsFuture(s, Apply(c, s, step), f)
  {
  }

  lemma FutureKept(c: Config, s: State, step: Step, f: nat)
    requires Enabled(c, s, step) && !step.Crash? && !step.Close? && f < s.nextId
    ensures KeepsFuture(s, Apply(c, s, step), f)
  {
    if IsTouch(c, s, step) {
      TouchFrame(c, s, step);
    } else if OnUnit(step) {
      MoveKeepsFuture(c, s, step, f);
    } else {
      OthersKeepFuture(c, s, step, f);
    }
  }

  lemma FutureKeptAt(c: Config, run: Run, m: nat, f: nat)
    requires IsRun(c, run) && m < |run.steps| && !run.steps[m].Crash? && !run.steps[m].Close?
    requires f in run.states[m].reg.futures
    ensures f in run.states[m + 1].reg.futures
    ensures run.states[m].reg.futures[f] != Pending ==> run.states[m + 1].reg.futures[f] == run.states[m].reg.futures[f]
  {
    Reachable(c, run, m);
    assert StepAt(c, run, m);
    FutureKept(c, run.states[m], run.steps[m], f);
  }

  /** A settled future never changes again: every caller that awaits it sees the same outcome. */
  lemma {:induction false} SettlesOnce(c: Config, run: Run, i: nat, j: nat, f: nat)
    requires IsRun(c, run) && i <= j < |run.states| && SameProcess(run, i, j)
    requires f in run.states[i].reg.futures && run.states[i].reg.futures[f] != Pending
    ensures f in run.states[j].reg.futures && run.states[j].reg.futures[f] == run.states[i].reg.futures[f]
    decreases j
  {
    if i == j {
    } else {
      SettlesOnce(c, run, i, j - 1, f);
      FutureKeptAt(c, run, j - 1, f);
    }
  }

  /** The future that the caller of `_submit` awaits. */
  function AwaitedBy(c: Config, s: State, req: Request): nat {
    var key := IdempotencyKey(c.digest, req);
    if IsPending(s.reg, key) then s.reg.inflight[key] else s.nextId
  }

  /** The pending future of `key` is still registered under it, or settled. */
  predicate KeepsRegistration(s: State, s': State, key: Key)
    requires key in s.reg.inflight
  {
    var f := s.reg.inflight[key];
    f in s'.reg.futures && (s'.reg.futures[f] == Pending ==> IsPending(s'.reg, key) && s'.reg.inflight[key] == f)
  }

  lemma MoveKeepsRegistration(c: Config, s: State, step: Step, key: Key)
    requires OnUnit(step) && !IsTouch(c, s, step) && Enabled(c, s, step) && IsPending(s.reg, key)
    ensures KeepsRegistration(s, Apply(c, s, step), key)
  {
  }

  lemma OthersKeepRegistration(c: Config, s: State, step: Step, key: Key)
    requires !OnUnit(step) && Enabled(c, s, step) && !step.Crash? && !step.Close?
    requires IsPending(s.reg, key) && s.reg.inflight[key] < s.nextId
    ensures KeepsRegistration(s, Apply(c, s, step), key)
  {
  }

  lemma RegistrationKept(c: Config, s: State, step: Step, key: Key)
    requires Enabled(c, s, step) && !step.Crash? && !step.Close?
    requires IsPending(s.reg, key) && s.reg.inflight[key] < s.nextId
    ensures KeepsRegistration(s, Apply(c, s, step), key)
  {
    if IsTouch(c, s, step) {
      TouchFrame(c, s, step);
    } else if OnUnit(step) {
      MoveKeepsRegistration(c, s, step, key);
    } else {
      OthersKeepRegistration(c, s, step, key);
    }
  }

  lemma RegistrationKeptAt(c: Config, run: Run, m: nat, key: Key)
    requires IsRun(c, run) && m < |run.steps| && !run.steps[m].Crash? && !run.steps[m].Close?
    requires IsPending(run.states[m].reg, key)
    ensures
      var f, reg := run.states[m].reg.inflight[key], run.states[m + 1].reg;
      f in reg.futures && (reg.futures[f] == Pending ==> IsPending(reg, key) && reg.inflight[key] == f)
  {
    Reachable(c, run, m);
    assert StepAt(c, run, m);
    RegistrationKept(c, run.states[m], run.steps[m], key);
  }

  lemma {:induction false} StaysRegistered(c: Config, run: Run, i: nat, j: nat, key: Key)
    requires IsRun(c, run) && i <= j < |run.states| && SameProcess(run, i, j) && IsPending(run.states[i].reg, key)
    ensures
      var f, reg := run.states[i].reg.inflight[key], run.states[j].reg;
      f in reg.futures && (reg.futures[f] == Pending ==> IsPending(reg, key) && reg.inflight[key] == f)
    decreases j
  {
    if i == j {
    } else {
      StaysRegistered(c, run, i, j - 1, key);
      var f := run.states[i].reg.inflight[key];
      if run.states[j - 1].reg.futures[f] == Pending {
        RegistrationKeptAt(c, run, j - 1, key);
      } else {
        FutureKeptAt(c, run, j - 1, f);
      }
    }
  }

  lemma SubmitRegisters(c: Config, s: State, req: Request)
    requires s.mode != Down
    ensures
      var s', key := Apply(c, s, Submit(req)), IdempotencyKey(c.digest, req);
      IsPending(s'.reg, key) && s'.reg.inflight[key] == AwaitedBy(c, s, req)
  {
  }

  /**
    Two callers with the same key, the second one arriving before the first one's future is settled,
    await the same future, however many steps lie between them.
  */
  lemma CallersShare(c: Config, run: Run, i: nat, j: nat)
    requires IsRun(c, run) && i < j < |run.steps| && SameProcess(run, i, j)
    requires run.steps[i].Submit? && run.steps[j].Submit?
    requires IdempotencyKey(c.digest, run.steps[i].req) == IdempotencyKey(c.digest, run.steps[j].req)
    ensures
      var f := AwaitedBy(c, run.states[i], run.steps[i].req);
      && f in run.states[j].reg.futures
      && (run.states[j].reg.futures[f] == Pending ==> AwaitedBy(c, run.states[j], run.steps[j].req) == f)
  {
    assert StepAt(c, run, i);
    SubmitRegisters(c, run.states[i], run.steps[i].req);
    StaysRegistered(c, run, i + 1, j, IdempotencyKey(c.digest, run.steps[i].req));
  }

  // ----- nobody is left waiting

  /** Every caller that waits waits for a unit. */
  ghost predicate Answerable(s: State) {
    forall f :: f in s.reg.futures && s.reg.futures[f] == Pending ==> f in s.units
  }

  /** Future `f`, pending after `step`, has a unit then. */
  ghost predicate AnswerableNext(s: State, s': State, f: nat) {
    f in s'.reg.futures && s'.reg.futures[f] == Pending ==>
      f in s'.units || (f in s.reg.futures && s.reg.futures[f] == Pending && f !in s.units)
  }

  lemma SettlerAnswers(c: Config, s: State, step: Step, f: nat)
    requires (step.Resolve? || step.Fail?) && Enabled(c, s, step) && UnitGood(c, s, step.t)
    ensures AnswerableNext(s, Apply(c, s, step), f)
  {
  }

  lemma MoveAnswers(c: Config, s: State, step: Step, f: nat)
    requires OnUnit(step) && !IsTouch(c, s, step) && !step.Resolve? && !step.Fail? && Enabled(c, s, step)
    ensures AnswerableNext(s, Apply(c, s, step), f)
  {
  }

  lemma OthersAnswer(c: Config, s: State, step: Step, f: nat)
    requires !OnUnit(step) && Enabled(c, s, step)
    ensures AnswerableNext(s, Apply(c, s, step), f)
  {
  }

  lemma AnswerableAt(c: Config, run: Run, m: nat, f: nat)
    requires IsRun(c, run) && m < |run.steps|
    ensures AnswerableNext(run.states[m], run.states[m + 1], f)
  {
    var s, step := run.states[m], run.steps[m];
    assert StepAt(c, run, m);
    if step.Resolve? || step.Fail? {
      SettlerFacts(c, run, m);
      SettlerAnswers(c, s, step, f);
    } else if IsTouch(c, s, step) {
      TouchFrame(c, s, step);
    } else if OnUnit(step) {
      MoveAnswers(c, s, step, f);
    } else {
      OthersAnswer(c, s, step, f);
    }
  }

  /** In every reachable state a pending future belongs to a unit, so no caller waits for nobody. */
  lemma {:induction false} NobodyForgotten(c: Config, run: Run, j: nat)
    requires IsRun(c, run) && j < |run.states|
    ensures Answerable(run.states[j])
  {
    if j == 0 {
      NoFutureAtBoot(c, run);
    } else {
      NobodyForgotten(c, run, j - 1);
      forall f | f in run.states[j].reg.futures && run.states[j].reg.futures[f] == Pending
        ensures f in run.states[j].units
      {
        AnswerableAt(c, run, j - 1, f);
      }
    }
  }
}
