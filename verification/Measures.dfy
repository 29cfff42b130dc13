/** Sums over the units of a state, and how a step on one unit changes them. */
module Measures {
  import opened Lifecycle
  import opened Invariant

  datatype Measure =
    | HandleRuns   // `_handle` runs a unit may still need
    | Allowance    // retries left plus one
    | StepsLeft    // steps a unit may still take
    | Undecided    // started requests that neither succeeded nor failed terminally

  predicate Terminal(loc: Loc) {
    loc.SuccessNoted? || loc.SuccessErased? || loc.DeadNoted? || loc.DeadPushed? || loc.DeadErased?
  }

  predicate InHandle(loc: Loc) { loc == Handling || loc == Executing || loc == RetryNoted || loc == RetryWritten }

  /** Retries left, as `should_retry` sees them. */
  function RetriesLeft(c: Config, u: Unit): nat {
    if u.attempt < c.maxRetries then c.maxRetries - u.attempt else 0
  }

  function LocRank(loc: Loc): nat {
    match loc
    case Registered => 17
    case Committed => 16
    case SubmitBlocked => 15
    case RecoverBlocked => 15
    case Sleeping => 16
    case RescheduleBlocked => 15
    case Queued => 14
    case Handling => 13
    case Executing => 12
    case RetryNoted => 11
    case RetryWritten => 10
    case DeadNoted(_) => 4
    case DeadPushed(_) => 3
    case DeadErased(_) => 2
    case SuccessNoted(_) => 3
    case SuccessErased(_) => 2
  }

  function Weight(c: Config, m: Measure, u: Unit): nat {
    match m
    case HandleRuns =>
      if !u.live || Terminal(u.loc) then 0 else RetriesLeft(c, u) + if InHandle(u.loc) then 0 else 1
    case Allowance => if u.live then RetriesLeft(c, u) + 1 else 0
    case StepsLeft => if u.live then 20 * RetriesLeft(c, u) + LocRank(u.loc) else 0
    case Undecided => if u.loc == Registered || u.loc == Committed || Terminal(u.loc) then 0 else 1
  }

  function WeightAt(c: Config, m: Measure, units: Units, t: nat): nat {
    if t in units then Weight(c, m, units[t]) else 0
  }

  /** The weight of the units numbered below `n`. */
  function Sum(c: Config, m: Measure, units: Units, n: nat): nat {
    if n == 0 then 0 else Sum(c, m, units, n - 1) + WeightAt(c, m, units, n - 1)
  }

  function Total(c: Config, m: Measure, s: State): nat { Sum(c, m, s.units, s.nextId) }

  /** `units'` differs from `units` at `t` alone. */
  ghost predicate OnlyAt(units: Units, units': Units, t: nat) {
    forall t' :: t' != t ==> (t' in units' <==> t' in units) && (t' in units ==> units'[t'] == units[t'])
  }

  lemma {:induction false} SumChange(c: Config, m: Measure, units: Units, units': Units, n: nat, t: nat)
    requires OnlyAt(units, units', t)
    ensures Sum(c, m, units', n) + (if t < n then WeightAt(c, m, units, t) else 0)
         == Sum(c, m, units, n) + (if t < n then WeightAt(c, m, units', t) else 0)
  {
    if n == 0 {
    } else {
      SumChange(c, m, units, units', n - 1, t);
    }
  }

  lemma {:induction false} RunsWithinAllowance(c: Config, units: Units, n: nat)
    ensures Sum(c, HandleRuns, units, n) <= Sum(c, Allowance, units, n)
  {
    if n == 0 {
    } else {
      RunsWithinAllowance(c, units, n - 1);
    }
  }
}
