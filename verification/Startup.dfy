/**
  Recovery among callers: `request` is accepted as soon as the session is open, so submissions may come
  at any point of the recovery loop.  When does `start` return, and what has it enqueued by then?
*/
module Startup {
  import opened Models
  import opened Storage
  import opened Dedup
  import opened Lifecycle
  import opened Invariant
  import opened Runs

  predicate IsRecovery(step: Step) { step.RecoverNext? || step.RecoverPut? || step.RecoverDone? }

  function Blocked(s: State): nat
    requires s.mode.Starting?
  {
    if s.mode.blocked.Some? then 1 else 0
  }

  /** The recovery loop waits for a slot in the queue. */
  predicate IsStuck(s: State) { s.mode.Starting? && s.mode.blocked.Some? }

  // ----- steps while `start` is running

  predicate IsCaller(step: Step) {
    step.Submit? || step.Upsert? || step.SubmitResume? || step.Put? || step.RemoveDead?
  }

  lemma NoWorkerMoves(c: Config, s: State, step: Step)
    requires s.mode.Starting? && Enabled(c, s, step)
    requires OnUnit(step) && step.t in s.units ==> BeforeWorkers(s.units[step.t].loc)
    ensures IsCaller(step) || IsRecovery(step) || step.Crash?
    ensures step.Put? ==> s.units[step.t].loc == SubmitBlocked
  {
  }

  lemma NoneAtWorker(c: Config, s: State, t: nat)
    requires Inv(c, s) && s.mode.Starting? && t in s.units
    ensures BeforeWorkers(s.units[t].loc)
  {
    UnitFacts(c, s, t);
  }

  /** No worker is up, so only callers and the recovery loop move. */
  lemma WhoMoves(c: Config, s: State, step: Step)
    requires Inv(c, s) && s.mode.Starting? && Enabled(c, s, step)
    ensures IsCaller(step) || IsRecovery(step) || step.Crash?
    ensures step.Put? ==> s.units[step.t].loc == SubmitBlocked
  {
    if OnUnit(step) && step.t in s.units {
      NoneAtWorker(c, s, step.t);
    }
    NoWorkerMoves(c, s, step);
  }

  predicate InRecovery(loc: Loc) { loc == Queued || loc == RecoverBlocked }

  /** What a caller's step does: it may queue one unit of its own and register one new key. */
  ghost predicate CallerMoved(s: State, s': State) {
    && s'.mode == s.mode && s.nextId <= s'.nextId
    && (s'.queue == s.queue
        || (|s'.queue| == |s.queue| + 1 && s'.queue[..|s.queue|] == s.queue
            && s'.queue[|s.queue|] in s.units && !InRecovery(s.units[s'.queue[|s.queue|]].loc)))
    && (forall t :: t in s.units && InRecovery(s.units[t].loc) ==> t in s'.units && s'.units[t] == s.units[t])
    && (forall key :: key in s.reg.inflight ==> key in s'.reg.inflight)
  }

  lemma CallerMoves(c: Config, s: State, step: Step)
    requires IsCaller(step) && Enabled(c, s, step) && (step.Put? ==> s.units[step.t].loc == SubmitBlocked)
    requires forall t :: t in s.units ==> t < s.nextId
    ensures CallerMoved(s, Apply(c, s, step))
  {
  }

  // ----- once stuck, for ever stuck

  /** A recovery loop that waits does so on a full queue. */
  ghost predicate WaitsOnFull(c: Config, s: State) { IsStuck(s) ==> Full(c, s) }

  lemma WaitsStep(c: Config, s: State, step: Step)
    requires Inv(c, s) && WaitsOnFull(c, s) && Enabled(c, s, step)
    ensures WaitsOnFull(c, Apply(c, s, step))
  {
    if s.mode.Starting? {
      WhoMoves(c, s, step);
      if IsCaller(step) {
        CallerMoves(c, s, step);
      }
    } else {
      StartsUnblocked(c, s, step);
    }
  }

  lemma StartsUnblocked(c: Config, s: State, step: Step)
    requires !s.mode.Starting? && Enabled(c, s, step)
    ensures !IsStuck(Apply(c, s, step))
  {
  }

  lemma {:induction false} AlwaysOnFull(c: Config, run: Run, i: nat)
    requires IsRun(c, run) && i < |run.states|
    ensures WaitsOnFull(c, run.states[i])
  {
    if i == 0 {
    } else {
      AlwaysOnFull(c, run, i - 1);
      OnFullNext(c, run, i - 1);
    }
  }

  lemma OnFullNext(c: Config, run: Run, m: nat)
    requires IsRun(c, run) && m < |run.steps| && WaitsOnFull(c, run.states[m])
    ensures WaitsOnFull(c, run.states[m + 1])
  {
    Reachable(c, run, m);
    assert StepAt(c, run, m);
    WaitsStep(c, run.states[m], run.steps[m]);
  }

  lemma StuckStep(c: Config, s: State, step: Step)
    requires Inv(c, s) && IsStuck(s) && Full(c, s) && Enabled(c, s, step) && !step.Crash?
    ensures Apply(c, s, step).mode == s.mode && Apply(c, s, step).queue == s.queue
  {
    WhoMoves(c, s, step);
    if IsCaller(step) {
      FullQueueStays(c, s, step);
    }
  }

  lemma FullQueueStays(c: Config, s: State, step: Step)
    requires IsCaller(step) && Enabled(c, s, step) && Full(c, s)
    ensures Apply(c, s, step).mode == s.mode && Apply(c, s, step).queue == s.queue
  {
  }

  lemma StuckAt(c: Config, run: Run, m: nat)
    requires IsRun(c, run) && m < |run.steps| && !run.steps[m].Crash?
    requires IsStuck(run.states[m]) && Full(c, run.states[m])
    ensures run.states[m + 1].mode == run.states[m].mode && run.states[m + 1].queue == run.states[m].queue
  {
    Reachable(c, run, m);
    assert StepAt(c, run, m);
    StuckStep(c, run.states[m], run.steps[m]);
  }

  /**
    Once the recovery loop waits for a slot, `start` never returns: short of a crash, whatever callers do,
    the loop stands where it stood and the queue stays full.
  */
  lemma {:induction false} StuckForEver(c: Config, run: Run, i: nat, j: nat)
    requires IsRun(c, run) && i <= j < |run.states| && IsStuck(run.states[i])
    requires forall m :: i <= m < j ==> !run.steps[m].Crash?
    ensures run.states[j].mode == run.states[i].mode && run.states[j].queue == run.states[i].queue
    ensures Full(c, run.states[j]) && forall step :: IsRecovery(step) ==> !Enabled(c, run.states[j], step)
    decreases j
  {
    AlwaysOnFull(c, run, i);
    if i == j {
    } else {
      StuckForEver(c, run, i, j - 1);
      StuckAt(c, run, j - 1);
    }
  }

  // ----- what the queue will have to hold

  /** What is queued, waits to be queued by recovery, or will have to be. */
  function Demand(s: State): nat
    requires s.mode.Starting?
  {
    |s.queue| + Blocked(s) + |Unclaimed(s.mode.remaining, s.reg.inflight.Keys)|
  }

  /** A caller's item enters the queue. */
  predicate Queues(c: Config, s: State, step: Step) { step.Put? || (step.SubmitResume? && !Full(c, s)) }

  /** A caller registers the key of a row that recovery has not reached. */
  predicate Claims(c: Config, s: State, step: Step) {
    && step.Submit? && s.mode.Starting?
    && IdempotencyKey(c.digest, step.req) in KeysOf(s.mode.remaining)
    && IdempotencyKey(c.digest, step.req) !in s.reg.inflight
  }

  function QueuesOne(c: Config, s: State, step: Step): int { if Queues(c, s, step) then 1 else 0 }

  function ClaimsOne(c: Config, s: State, step: Step): int { if Claims(c, s, step) then 1 else 0 }

  lemma SubmitDemand(c: Config, s: State, req: Request)
    requires s.mode.Starting?
    requires IdempotencyKey(c.digest, req) in s.reg.inflight ==> IsPending(s.reg, IdempotencyKey(c.digest, req))
    requires DistinctKeys(s.mode.remaining)
    ensures
      var s' := Apply(c, s, Submit(req));
      s'.mode == s.mode && Demand(s') == Demand(s) - ClaimsOne(c, s, Submit(req))
  {
    var key, claimed := IdempotencyKey(c.digest, req), s.reg.inflight.Keys;
    if IsPending(s.reg, key) {
      assert Apply(c, s, Submit(req)).reg.inflight.Keys == claimed;
    } else {
      assert Apply(c, s, Submit(req)).reg.inflight.Keys == claimed + {key};
      if key in KeysOf(s.mode.remaining) {
        ClaimOne(s.mode.remaining, claimed, key);
      } else {
        ClaimOutside(s.mode.remaining, claimed, key);
      }
    }
  }

  lemma OtherDemand(c: Config, s: State, step: Step)
    requires s.mode.Starting? && IsCaller(step) && !step.Submit? && Enabled(c, s, step)
    ensures
      var s' := Apply(c, s, step);
      s'.mode == s.mode && Demand(s') == Demand(s) + QueuesOne(c, s, step)
  {
    assert Apply(c, s, step).reg == s.reg;
  }

  lemma NextShape(c: Config, s: State)
    requires s.mode.Starting? && Enabled(c, s, RecoverNext)
    ensures
      var s', row := Apply(c, s, RecoverNext), s.mode.remaining[0];
      && s'.mode.Starting? && s'.mode.remaining == s.mode.remaining[1..]
      && s'.reg.inflight.Keys == s.reg.inflight.Keys + {row.key}
      && |s'.queue| + Blocked(s') == |s.queue| + Blocked(s) + if IsPending(s.reg, row.key) then 0 else 1
  {
  }

  lemma NextKeys(rows: seq<InflightRow>, claimed: set<Key>)
    requires rows != [] && DistinctKeys(rows)
    ensures |Unclaimed(rows[1..], claimed + {rows[0].key})|
         == |Unclaimed(rows, claimed)| - if rows[0].key in claimed then 0 else 1
  {
    KeysRest(rows);
    UnclaimedFirst(rows, claimed);
    ClaimOutside(rows[1..], claimed, rows[0].key);
  }

  lemma NextDemand(c: Config, s: State)
    requires s.mode.Starting? && Enabled(c, s, RecoverNext) && DistinctKeys(s.mode.remaining)
    requires s.mode.remaining[0].key in s.reg.inflight ==> IsPending(s.reg, s.mode.remaining[0].key)
    ensures
      var s' := Apply(c, s, RecoverNext);
      s'.mode.Starting? && Demand(s') == Demand(s)
  {
    NextShape(c, s);
    NextKeys(s.mode.remaining, s.reg.inflight.Keys);
  }

  lemma InflightPending(c: Config, s: State)
    requires Inv(c, s)
    ensures forall key :: key in s.reg.inflight ==> IsPending(s.reg, key)
    ensures DistinctKeys(Remaining(s.mode))
    ensures forall t :: t in s.units ==> t < s.nextId
    ensures forall t :: t in s.queue ==> t < s.nextId
  {
  }

  function Change(c: Config, s: State, step: Step): int { QueuesOne(c, s, step) - ClaimsOne(c, s, step) }

  /** What the invariant says about the keys that `step` is about. */
  ghost predicate StepKnows(c: Config, s: State, step: Step) {
    && s.mode.Starting? && Enabled(c, s, step) && (IsCaller(step) || IsRecovery(step))
    && (step.Submit? ==> var key := IdempotencyKey(c.digest, step.req); key in s.reg.inflight ==> IsPending(s.reg, key))
    && (step.RecoverNext? ==>
          var key := s.mode.remaining[0].key; key in s.reg.inflight ==> IsPending(s.reg, key))
    && DistinctKeys(s.mode.remaining)
  }

  lemma StepFacts(c: Config, s: State, step: Step)
    requires Inv(c, s) && s.mode.Starting? && Enabled(c, s, step) && !step.Crash?
    ensures StepKnows(c, s, step)
  {
    WhoMoves(c, s, step);
    InflightPending(c, s);
  }

  /** Recovery never changes the demand; a caller raises it by queueing and lowers it by claiming a row. */
  lemma DemandStep(c: Config, s: State, step: Step)
    requires StepKnows(c, s, step)
    ensures Loaded(Apply(c, s, step), Demand(s) + Change(c, s, step))
  {
    if step.Submit? {
      SubmitDemand(c, s, step.req);
    } else if IsCaller(step) {
      OtherDemand(c, s, step);
    } else if step.RecoverNext? {
      NextDemand(c, s);
    }
  }

  /** The demand on the queue is `load` while `start` is running, and what is queued when it returns. */
  predicate Loaded(s: State, load: int) {
    (s.mode.Starting? && Demand(s) == load) || (s.mode == Running && |s.queue| == load)
  }

  predicate StartingAt(run: Run, m: nat) {
    m < |run.states| && m < |run.steps| && run.states[m].mode.Starting? && !run.steps[m].Crash?
  }

  /** Rows are listed at step `i`; nothing crashes, and `start` is running until `j`. */
  ghost predicate StartUpTo(c: Config, run: Run, i: nat, j: nat) {
    IsRun(c, run) && i < j < |run.states| && run.steps[i].List? && StartingFrom(run, i + 1, j)
  }

  predicate StartingFrom(run: Run, i: nat, j: nat)
    decreases j
  {
    i < j ==> StartingAt(run, j - 1) && StartingFrom(run, i, j - 1)
  }

  /** The items callers have queued before step `j`, those queued before the listing included. */
  function CallerItems(c: Config, run: Run, i: nat, j: nat): int
    requires i < j < |run.states| == |run.steps| + 1
    decreases j
  {
    if j == i + 1 then |run.states[i].queue|
    else CallerItems(c, run, i, j - 1) + QueuesOne(c, run.states[j - 1], run.steps[j - 1])
  }

  /** The rows of the listing that no caller registered before the listing or, ahead of recovery, before `j`. */
  function UnclaimedRows(c: Config, run: Run, i: nat, j: nat): int
    requires i < j < |run.states| == |run.steps| + 1 && run.steps[i].List?
    decreases j
  {
    if j == i + 1 then |Unclaimed(run.steps[i].listing, run.states[i].reg.inflight.Keys)|
    else UnclaimedRows(c, run, i, j - 1) - ClaimsOne(c, run.states[j - 1], run.steps[j - 1])
  }

  lemma ListDemand(c: Config, run: Run, i: nat)
    requires IsRun(c, run) && i < |run.steps| && run.steps[i].List?
    ensures run.states[i + 1].mode.Starting?
    ensures Demand(run.states[i + 1]) == Load(c, run, i, i + 1)
  {
    assert StepAt(c, run, i);
  }

  lemma DemandAt(c: Config, run: Run, m: nat, load: int)
    requires IsRun(c, run) && StartingAt(run, m) && Loaded(run.states[m], load)
    ensures Loaded(run.states[m + 1], load + Change(c, run.states[m], run.steps[m]))
  {
    Reachable(c, run, m);
    assert StepAt(c, run, m);
    StepFacts(c, run.states[m], run.steps[m]);
    DemandStep(c, run.states[m], run.steps[m]);
  }

  /** What the steps until `j` make of the demand at the listing. */
  function Load(c: Config, run: Run, i: nat, j: nat): int
    requires i < j < |run.states| == |run.steps| + 1 && run.steps[i].List?
    decreases j
  {
    if j == i + 1 then |run.states[i].queue| + |Unclaimed(run.steps[i].listing, run.states[i].reg.inflight.Keys)|
    else Load(c, run, i, j - 1) + Change(c, run.states[j - 1], run.steps[j - 1])
  }

  lemma {:induction false} LoadIs(c: Config, run: Run, i: nat, j: nat)
    requires i < j < |run.states| == |run.steps| + 1 && run.steps[i].List?
    ensures Load(c, run, i, j) == CallerItems(c, run, i, j) + UnclaimedRows(c, run, i, j)
    decreases j
  {
    if j == i + 1 {
    } else {
      LoadIs(c, run, i, j - 1);
    }
  }

  /** The demand is what callers have queued and the rows they have not claimed. */
  lemma {:induction false} DemandIs(c: Config, run: Run, i: nat, j: nat)
    requires StartUpTo(c, run, i, j)
    ensures Loaded(run.states[j], Load(c, run, i, j))
    decreases j
  {
    if j == i + 1 {
      ListDemand(c, run, i);
    } else {
      DemandIs(c, run, i, j - 1);
      DemandAt(c, run, j - 1, Load(c, run, i, j - 1));
    }
  }

  /** `start` has just returned, or its recovery loop cannot move. */
  ghost predicate RecoveryOver(c: Config, s: State) {
    s.mode == Running || forall step :: IsRecovery(step) ==> !Enabled(c, s, step)
  }

  lemma NotOverMoves(c: Config, s: State)
    requires s.mode.Starting? && s.mode.blocked == None
    ensures Enabled(c, s, RecoverNext) || Enabled(c, s, RecoverDone)
  {
  }

  /**
    Whatever callers do meanwhile, `start` returns if and only if the items they have queued and the rows
    they have not claimed fit in the queue together; otherwise recovery gets stuck on a full queue.
  */
  lemma StartReturnsIffFits(c: Config, run: Run, i: nat, j: nat)
    requires StartUpTo(c, run, i, j) && RecoveryOver(c, run.states[j])
    ensures run.states[j].mode == Running <==>
      CallerItems(c, run, i, j) + UnclaimedRows(c, run, i, j) <= c.maxSize
    ensures run.states[j].mode != Running ==> IsStuck(run.states[j]) && Full(c, run.states[j])
  {
    var s := run.states[j];
    DemandIs(c, run, i, j);
    LoadIs(c, run, i, j);
    Reachable(c, run, j);
    AlwaysOnFull(c, run, j);
    if s.mode.Starting? && s.mode.blocked == None {
      NotOverMoves(c, s);
    }
  }

  // ----- what recovery enqueues

  /** Unit `t` was started by recovery for row `n` of the listing. */
  datatype Pick = Pick(t: nat, n: int)

  predicate PicksNow(s: State, step: Step) {
    step.RecoverNext? && s.mode.Starting? && s.mode.remaining != [] && !IsPending(s.reg, s.mode.remaining[0].key)
  }

  predicate SkipsNow(s: State, step: Step) {
    step.RecoverNext? && s.mode.Starting? && s.mode.remaining != [] && IsPending(s.reg, s.mode.remaining[0].key)
  }

  /** How many rows of the listing recovery has reached. */
  function Reached(s: State, snap: seq<InflightRow>): int { |snap| - |Remaining(s.mode)| }

  /** The units recovery started before `j`, in this order. */
  function Picks(run: Run, i: nat, j: nat): seq<Pick>
    requires i < j < |run.states| == |run.steps| + 1 && run.steps[i].List?
    decreases j
  {
    if j == i + 1 then []
    else
      var s := run.states[j - 1];
      Picks(run, i, j - 1) +
      if PicksNow(s, run.steps[j - 1]) then [Pick(s.nextId, Reached(s, run.steps[i].listing))] else []
  }

  /** The rows whose key recovery found registered by a caller when it reached them. */
  function Skips(run: Run, i: nat, j: nat): set<int>
    requires i < j < |run.states| == |run.steps| + 1 && run.steps[i].List?
    decreases j
  {
    if j == i + 1 then {}
    else
      var s := run.states[j - 1];
      Skips(run, i, j - 1) + if SkipsNow(s, run.steps[j - 1]) then {Reached(s, run.steps[i].listing)} else {}
  }

  /** The unit of a pick has the request of its row at the saved count, and is queued unless it is the one waiting. */
  predicate Picked(s: State, snap: seq<InflightRow>, p: Pick) {
    && 0 <= p.n < Reached(s, snap) <= |snap| && p.t in s.units && p.t < s.nextId
    && s.units[p.t] == Unit(snap[p.n].request, snap[p.n].retryCount,
                            if s.mode.Starting? && s.mode.blocked == Some(p.t) then RecoverBlocked else Queued, true)
  }

  ghost predicate Ascending(ps: seq<Pick>) {
    forall k, l :: 0 <= k < l < |ps| ==> ps[k].n < ps[l].n && ps[k].t < ps[l].t
  }

  ghost predicate IsPicked(ps: seq<Pick>, n: int) { exists k :: 0 <= k < |ps| && ps[k].n == n }

  /** The picks stand in the queue in the order in which they were made. */
  ghost predicate QueuedInOrder(queue: seq<nat>, ps: seq<Pick>) {
    forall p, q, k, l ::
      0 <= p < q < |queue| && 0 <= k < |ps| && 0 <= l < |ps| && queue[p] == ps[k].t && queue[q] == ps[l].t ==> k < l
  }

  /** Of the rows reached, each was either enqueued, once, in order and at its saved count, or found claimed. */
  ghost predicate Replayed(s: State, snap: seq<InflightRow>, ps: seq<Pick>, skips: set<int>) {
    && 0 <= Reached(s, snap) && Remaining(s.mode) == snap[Reached(s, snap)..]
    && (forall k :: 0 <= k < |ps| ==> Picked(s, snap, ps[k]))
    && Ascending(ps) && QueuedInOrder(s.queue, ps)
    && (forall n :: 0 <= n < Reached(s, snap) ==> (IsPicked(ps, n) <==> n !in skips))
    && (forall n :: n in skips ==> 0 <= n < Reached(s, snap))
  }

  lemma CallerReplays(s: State, s': State, snap: seq<InflightRow>, ps: seq<Pick>, skips: set<int>)
    requires Replayed(s, snap, ps, skips) && CallerMoved(s, s')
    ensures Replayed(s', snap, ps, skips)
  {
    forall k | 0 <= k < |ps|
      ensures Picked(s', snap, ps[k]) && (|s'.queue| > |s.queue| ==> s'.queue[|s.queue|] != ps[k].t)
    {
      assert Picked(s, snap, ps[k]);
    }
    CallerKeepsOrder(s.queue, s'.queue, ps);
  }

  lemma CallerKeepsOrder(queue: seq<nat>, queue': seq<nat>, ps: seq<Pick>)
    requires QueuedInOrder(queue, ps)
    requires queue' == queue || (|queue'| == |queue| + 1 && queue'[..|queue|] == queue
                                 && forall k :: 0 <= k < |ps| ==> queue'[|queue|] != ps[k].t)
    ensures QueuedInOrder(queue', ps)
  {
    forall p, q, k, l | 0 <= p < q < |queue'| && 0 <= k < |ps| && 0 <= l < |ps|
      && queue'[p] == ps[k].t && queue'[q] == ps[l].t
      ensures k < l
    {
      assert q < |queue| && queue[p] == queue'[p] && queue[q] == queue'[q];
    }
  }

  lemma PickShape(c: Config, s: State)
    requires Enabled(c, s, RecoverNext) && PicksNow(s, RecoverNext)
    ensures PicksFirst(s, Apply(c, s, RecoverNext))
  {
  }

  lemma SkipShape(c: Config, s: State)
    requires Enabled(c, s, RecoverNext) && SkipsNow(s, RecoverNext)
    ensures
      var s' := Apply(c, s, RecoverNext);
      && s'.nextId == s.nextId && s'.mode == Starting(s.mode.remaining[1..], None)
      && s'.units == s.units && s'.queue == s.queue
  {
  }

  lemma SkipReplays(s: State, s': State, snap: seq<InflightRow>, ps: seq<Pick>, skips: set<int>)
    requires Replayed(s, snap, ps, skips) && s.mode.Starting? && s.mode.remaining != [] && s.mode.blocked == None
    requires s'.nextId == s.nextId && s'.mode == Starting(s.mode.remaining[1..], None)
    requires s'.units == s.units && s'.queue == s.queue
    ensures Replayed(s', snap, ps, skips + {Reached(s, snap)})
  {
    forall k | 0 <= k < |ps|
      ensures Picked(s', snap, ps[k])
    {
      assert Picked(s, snap, ps[k]);
    }
    forall n | 0 <= n < Reached(s', snap)
      ensures IsPicked(ps, n) <==> n !in skips + {Reached(s, snap)}
    {
      assert forall k :: 0 <= k < |ps| ==> Picked(s, snap, ps[k]);
    }
  }

  lemma PickKeepsOrder(queue: seq<nat>, ps: seq<Pick>, p: Pick)
    requires QueuedInOrder(queue, ps) && p.t !in queue
    ensures QueuedInOrder(queue, ps + [p])
    ensures (forall k :: 0 <= k < |ps| ==> ps[k].t != p.t) ==> QueuedInOrder(queue + [p.t], ps + [p])
  {
  }

  lemma PickedStays(s: State, s': State, snap: seq<InflightRow>, p: Pick)
    requires Picked(s, snap, p) && s.mode.Starting? && s.mode.blocked == None && s.mode.remaining != []
    requires s'.nextId == s.nextId + 1 && s'.mode.Starting? && s'.mode.remaining == s.mode.remaining[1..]
    requires s'.mode.blocked == None || s'.mode.blocked == Some(s.nextId)
    requires p.t in s'.units && s'.units[p.t] == s.units[p.t]
    ensures Picked(s', snap, p)
  {
  }

  lemma PickCounts(ps: seq<Pick>, skips: set<int>, p: Pick)
    requires forall n :: 0 <= n < p.n ==> (IsPicked(ps, n) <==> n !in skips)
    requires forall n :: n in skips ==> 0 <= n < p.n
    ensures forall n :: 0 <= n < p.n + 1 ==> (IsPicked(ps + [p], n) <==> n !in skips)
  {
    forall n | 0 <= n < p.n + 1
      ensures IsPicked(ps + [p], n) <==> n !in skips
    {
      if n == p.n {
        assert (ps + [p])[|ps|].n == n;
      } else {
        if k :| 0 <= k < |ps| && ps[k].n == n {
          assert (ps + [p])[k].n == n;
        }
        if k :| 0 <= k < |ps + [p]| && (ps + [p])[k].n == n {
          assert ps[k].n == n;
        }
      }
    }
  }

  lemma PickReplays(c: Config, s: State, snap: seq<InflightRow>, ps: seq<Pick>, skips: set<int>)
    requires Replayed(s, snap, ps, skips) && Enabled(c, s, RecoverNext) && PicksNow(s, RecoverNext)
    requires forall t :: t in s.queue ==> t < s.nextId
    ensures Replayed(Apply(c, s, RecoverNext), snap, ps + [Pick(s.nextId, Reached(s, snap))], skips)
  {
    PickShape(c, s);
    PickedReplays(s, Apply(c, s, RecoverNext), snap, ps, skips);
  }

  /** The state after `s` in which the recovery loop has started a unit for the first row ahead of it. */
  ghost predicate PicksFirst(s: State, s': State) {
    && s.mode.Starting? && s.mode.blocked == None && s.mode.remaining != []
    && s'.mode.Starting? && s'.mode.remaining == s.mode.remaining[1..] && s'.nextId == s.nextId + 1
    && (s'.mode.blocked == None || s'.mode.blocked == Some(s.nextId))
    && var row := s.mode.remaining[0];
    var loc := if s'.mode.blocked == None then Queued else RecoverBlocked;
    && s'.units == s.units[s.nextId := Unit(row.request, row.retryCount, loc, true)]
    && s'.queue == s.queue + if s'.mode.blocked == None then [s.nextId] else []
  }

  lemma PickedReplays(s: State, s': State, snap: seq<InflightRow>, ps: seq<Pick>, skips: set<int>)
    requires Replayed(s, snap, ps, skips) && PicksFirst(s, s') && forall t :: t in s.queue ==> t < s.nextId
    ensures Replayed(s', snap, ps + [Pick(s.nextId, Reached(s, snap))], skips)
  {
    var p := Pick(s.nextId, Reached(s, snap));
    forall k | 0 <= k < |ps|
      ensures ps[k].t < p.t && ps[k].n < p.n && Picked(s', snap, ps[k])
    {
      assert Picked(s, snap, ps[k]);
      PickedStays(s, s', snap, ps[k]);
    }
    PickKeepsOrder(s.queue, ps, p);
    PickCounts(ps, skips, p);
  }

  lemma DoneReplays(c: Config, s: State, snap: seq<InflightRow>, ps: seq<Pick>, skips: set<int>)
    requires Replayed(s, snap, ps, skips) && Enabled(c, s, RecoverDone)
    ensures Replayed(Apply(c, s, RecoverDone), snap, ps, skips)
  {
    var s' := Apply(c, s, RecoverDone);
    forall k | 0 <= k < |ps|
      ensures Picked(s', snap, ps[k])
    {
      assert Picked(s, snap, ps[k]);
    }
  }

  /** The picks and skips after `step`, when they were `ps` and `skips` before. */
  ghost predicate ReplayedNext(
    s: State, step: Step, s': State, snap: seq<InflightRow>, ps: seq<Pick>, skips: set<int>)
  {
    Replayed(s', snap,
             ps + (if PicksNow(s, step) then [Pick(s.nextId, Reached(s, snap))] else []),
             skips + (if SkipsNow(s, step) then {Reached(s, snap)} else {}))
  }

  lemma CallerReplaysNext(c: Config, s: State, step: Step, snap: seq<InflightRow>, ps: seq<Pick>, skips: set<int>)
    requires Replayed(s, snap, ps, skips) && IsCaller(step) && Enabled(c, s, step)
    requires CallerMoved(s, Apply(c, s, step))
    ensures ReplayedNext(s, step, Apply(c, s, step), snap, ps, skips)
  {
    assert ps + [] == ps && skips + {} == skips;
    CallerReplays(s, Apply(c, s, step), snap, ps, skips);
  }

  lemma RecoveryReplaysNext(c: Config, s: State, step: Step, snap: seq<InflightRow>, ps: seq<Pick>, skips: set<int>)
    requires Replayed(s, snap, ps, skips) && IsRecovery(step) && Enabled(c, s, step) && WaitsOnFull(c, s)
    requires forall t :: t in s.queue ==> t < s.nextId
    ensures ReplayedNext(s, step, Apply(c, s, step), snap, ps, skips)
  {
    assert ps + [] == ps && skips + {} == skips;
    if step.RecoverDone? {
      DoneReplays(c, s, snap, ps, skips);
    } else if PicksNow(s, step) {
      PickReplays(c, s, snap, ps, skips);
    } else {
      SkipShape(c, s);
      SkipReplays(s, Apply(c, s, step), snap, ps, skips);
    }
  }

  lemma ReplayStep(c: Config, s: State, step: Step, snap: seq<InflightRow>, ps: seq<Pick>, skips: set<int>)
    requires Inv(c, s) && s.mode.Starting? && WaitsOnFull(c, s) && Enabled(c, s, step) && !step.Crash?
    requires Replayed(s, snap, ps, skips)
    ensures ReplayedNext(s, step, Apply(c, s, step), snap, ps, skips)
  {
    WhoMoves(c, s, step);
    InflightPending(c, s);
    if IsCaller(step) {
      CallerMoves(c, s, step);
      CallerReplaysNext(c, s, step, snap, ps, skips);
    } else {
      RecoveryReplaysNext(c, s, step, snap, ps, skips);
    }
  }

  lemma ReplayAt(c: Config, run: Run, i: nat, m: nat)
    requires IsRun(c, run) && i < m < |run.steps| && run.steps[i].List? && StartingAt(run, m)
    requires Replayed(run.states[m], run.steps[i].listing, Picks(run, i, m), Skips(run, i, m))
    ensures Replayed(run.states[m + 1], run.steps[i].listing, Picks(run, i, m + 1), Skips(run, i, m + 1))
  {
    Reachable(c, run, m);
    AlwaysOnFull(c, run, m);
    assert StepAt(c, run, m);
    ReplayStep(c, run.states[m], run.steps[m], run.steps[i].listing, Picks(run, i, m), Skips(run, i, m));
  }

  lemma ListReplayed(c: Config, run: Run, i: nat)
    requires IsRun(c, run) && i < |run.steps| && run.steps[i].List?
    ensures Replayed(run.states[i + 1], run.steps[i].listing, [], {})
  {
    assert StepAt(c, run, i);
  }

  /**
    Whatever callers do meanwhile, recovery has by `j` enqueued the rows it has reached and nobody had
    claimed, each once, in the order of the listing and at the saved count; when `start` has returned,
    it has reached every row.
  */
  lemma {:induction false} RecoveryReplays(c: Config, run: Run, i: nat, j: nat)
    requires StartUpTo(c, run, i, j)
    ensures Replayed(run.states[j], run.steps[i].listing, Picks(run, i, j), Skips(run, i, j))
    ensures run.states[j].mode == Running ==> Reached(run.states[j], run.steps[i].listing) == |run.steps[i].listing|
    decreases j
  {
    if j == i + 1 {
      ListReplayed(c, run, i);
    } else {
      RecoveryReplays(c, run, i, j - 1);
      ReplayAt(c, run, i, j - 1);
    }
  }

  /** How many steps the recovery loop takes after the listing and before `j`. */
  function LoopSteps(run: Run, i: nat, j: nat): nat
    requires i < j < |run.states| == |run.steps| + 1
    decreases j
  {
    if j == i + 1 then 0 else LoopSteps(run, i, j - 1) + if IsRecovery(run.steps[j - 1]) then 1 else 0
  }

  predicate LoopAt(s: State, snap: seq<InflightRow>, steps: nat) {
    steps == Reached(s, snap) + (if s.mode == Running then 1 else 0) <= |snap| + 1
  }

  lemma LoopMoves(c: Config, s: State, step: Step, snap: seq<InflightRow>, steps: nat)
    requires Inv(c, s) && s.mode.Starting? && WaitsOnFull(c, s) && Enabled(c, s, step) && !step.Crash?
    requires LoopAt(s, snap, steps)
    ensures LoopAt(Apply(c, s, step), snap, steps + if IsRecovery(step) then 1 else 0)
  {
    WhoMoves(c, s, step);
    InflightPending(c, s);
    if IsCaller(step) {
      CallerMoves(c, s, step);
    } else if step.RecoverNext? {
      NextShape(c, s);
    }
  }

  lemma LoopMovesAt(c: Config, run: Run, m: nat, snap: seq<InflightRow>, steps: nat)
    requires IsRun(c, run) && StartingAt(run, m) && LoopAt(run.states[m], snap, steps)
    ensures LoopAt(run.states[m + 1], snap, steps + if IsRecovery(run.steps[m]) then 1 else 0)
  {
    Reachable(c, run, m);
    AlwaysOnFull(c, run, m);
    assert StepAt(c, run, m);
    LoopMoves(c, run.states[m], run.steps[m], snap, steps);
  }

  lemma ListReached(c: Config, run: Run, i: nat)
    requires IsRun(c, run) && i < |run.steps| && run.steps[i].List?
    ensures run.states[i + 1].mode.Starting? && Reached(run.states[i + 1], run.steps[i].listing) == 0
  {
    assert StepAt(c, run, i);
  }

  /** The loop takes one step per row reached and one more to return, however many callers come in between. */
  lemma {:induction false} LoopIsShort(c: Config, run: Run, i: nat, j: nat)
    requires StartUpTo(c, run, i, j)
    ensures LoopAt(run.states[j], run.steps[i].listing, LoopSteps(run, i, j))
    decreases j
  {
    if j == i + 1 {
      ListReached(c, run, i);
    } else {
      LoopIsShort(c, run, i, j - 1);
      LoopMovesAt(c, run, j - 1, run.steps[i].listing, LoopSteps(run, i, j - 1));
    }
  }
}
