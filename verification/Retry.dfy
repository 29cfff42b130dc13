/**
  Retry arithmetic (async_hardened_client/retry.py) and the outcome split it works on
  (async_hardened_client/errors.py).
*/
module Retry {
  import opened Models

  datatype Policy = Policy(maxRetries: nat, baseDelay: real, maxDelay: real, jitter: bool)

  function Min(x: real, y: real): real { if x <= y then x else y }

  function Max(x: real, y: real): real { if x >= y then x else y }

  function Pow2(n: nat): real { if n == 0 then 1.0 else 2.0 * Pow2(n - 1) }

  /** x * 2^n, by repeated doubling. */
  function Doubled(x: real, n: nat): real { if n == 0 then x else 2.0 * Doubled(x, n - 1) }

  lemma {:induction false} DoubledIsPower(x: real, n: nat)
    ensures Doubled(x, n) == x * Pow2(n)
  {
    if n == 0 {
    } else {
      DoubledIsPower(x, n - 1);
    }
  }

  predicate ShouldRetry(p: Policy, attempt: nat) { attempt < p.maxRetries }

  /** The exponential delay, capped before the random draw. */
  function Target(p: Policy, attempt: nat): real {
    Min(Max(0.0, p.maxDelay), Doubled(Max(0.0, p.baseDelay), attempt))
  }

  /** `rng.uniform(0, _)`: any function that stays between 0 and its argument. */
  type Uniform = real -> real

  ghost predicate UniformOk(uniform: Uniform) { forall x :: x >= 0.0 ==> 0.0 <= uniform(x) <= x }

  function BackoffSeconds(p: Policy, attempt: nat, retryAfter: Option<real>, uniform: Uniform): real {
    if retryAfter.Some? && retryAfter.value > 0.0 then Min(retryAfter.value, p.maxDelay)
    else if !p.jitter then Target(p, attempt)
    else uniform(Target(p, attempt))
  }

  predicate PolicyOk(p: Policy) { p.baseDelay >= 0.0 && p.maxDelay >= 0.0 }

  /** What one retry draws: the Retry-After value the failure carried, if any, and the random number. */
  datatype Draw = Draw(retryAfter: Option<real>, uniform: Uniform)

  ghost predicate DrawsOk(draws: seq<Draw>) { forall i :: 0 <= i < |draws| ==> UniformOk(draws[i].uniform) }

  function Sum(delays: seq<real>): real {
    if delays == [] then 0.0 else Sum(delays[..|delays| - 1]) + delays[|delays| - 1]
  }

  /** The delays of retries 0, .., |draws| - 1 of one request. */
  function Delays(p: Policy, draws: seq<Draw>): seq<real> {
    seq(|draws|, i requires 0 <= i < |draws| => BackoffSeconds(p, i, draws[i].retryAfter, draws[i].uniform))
  }

  lemma {:induction false} DoubledGrows(x: real, n: nat)
    requires x >= 0.0
    ensures 0.0 <= Doubled(x, n) <= Doubled(x, n + 1)
  {
    if n == 0 {
    } else {
      DoubledGrows(x, n - 1);
    }
  }

  lemma TargetRange(p: Policy, attempt: nat)
    requires PolicyOk(p)
    ensures 0.0 <= Target(p, attempt) <= p.maxDelay && Target(p, attempt) <= Doubled(p.baseDelay, attempt)
  {
    DoubledGrows(p.baseDelay, attempt);
  }

  /** The jitter-free delay never decreases with the attempt number and never exceeds `max_delay`. */
  lemma {:induction false} TargetMonotone(p: Policy, i: nat, j: nat)
    requires PolicyOk(p) && i <= j
    ensures Target(p, i) <= Target(p, j) <= p.maxDelay
  {
    TargetRange(p, j);
    if i == j {
    } else {
      TargetMonotone(p, i, j - 1);
      DoubledGrows(p.baseDelay, j - 1);
    }
  }

  /** The failure carried a Retry-After that is honoured. */
  predicate Asked(d: Draw) { d.retryAfter.Some? && d.retryAfter.value > 0.0 }

  lemma BackoffRange(p: Policy, attempt: nat, d: Draw)
    requires PolicyOk(p) && UniformOk(d.uniform)
    ensures 0.0 <= BackoffSeconds(p, attempt, d.retryAfter, d.uniform) <= p.maxDelay
    ensures !Asked(d) ==>
      BackoffSeconds(p, attempt, d.retryAfter, d.uniform) <= Doubled(p.baseDelay, attempt)
  {
    TargetRange(p, attempt);
    assert 0.0 <= d.uniform(Target(p, attempt)) <= Target(p, attempt);
  }

  /**
    The delay, exactly: a positive Retry-After, or else base * 2^attempt, or the random draw below it, and
    either of the first two cut at `max_delay`.  Below zero, base and maximum count as zero for the latter.
  */
  lemma BackoffExact(p: Policy, attempt: nat, d: Draw)
    ensures
      var delay := BackoffSeconds(p, attempt, d.retryAfter, d.uniform);
      var base := if p.baseDelay >= 0.0 then p.baseDelay else 0.0;
      var full, cap := base * Pow2(attempt), if p.maxDelay >= 0.0 then p.maxDelay else 0.0;
      var wait := if full <= cap then full else cap;
      if Asked(d) then delay == if d.retryAfter.value <= p.maxDelay then d.retryAfter.value else p.maxDelay
      else if p.jitter then delay == d.uniform(wait)
      else delay == wait
  {
    DoubledIsPower(if p.baseDelay >= 0.0 then p.baseDelay else 0.0, attempt);
  }

  /** n * x, by repeated addition. */
  function Times(n: nat, x: real): real { if n == 0 then 0.0 else Times(n - 1, x) + x }

  lemma OneTimeMore(m: real, x: real)
    ensures (m + 1.0) * x == m * x + x
  {
  }

  lemma {:induction false} TimesIsProduct(n: nat, x: real)
    ensures Times(n, x) == n as real * x
  {
    if n == 0 {
    } else {
      TimesIsProduct(n - 1, x);
      OneTimeMore((n - 1) as real, x);
      assert n as real == (n - 1) as real + 1.0;
    }
  }

  lemma {:induction false} TimesGrows(m: nat, n: nat, x: real)
    requires x >= 0.0 && m <= n
    ensures Times(m, x) <= Times(n, x)
  {
    if m == n {
    } else {
      TimesGrows(m, n - 1, x);
    }
  }

  lemma {:induction false} SumCapped(delays: seq<real>, cap: real)
    requires forall i :: 0 <= i < |delays| ==> 0.0 <= delays[i] <= cap
    ensures 0.0 <= Sum(delays) <= Times(|delays|, cap)
  {
    if delays == [] {
    } else {
      SumCapped(delays[..|delays| - 1], cap);
    }
  }

  lemma {:induction false} SumGeometric(delays: seq<real>, base: real)
    requires forall i :: 0 <= i < |delays| ==> delays[i] <= Doubled(base, i)
    ensures Sum(delays) <= Doubled(base, |delays|) - base
  {
    if delays == [] {
    } else {
      SumGeometric(delays[..|delays| - 1], base);
    }
  }

  /** Over n retries the delays sum to at most n * max_delay, whatever is drawn. */
  lemma TotalDelayCapped(p: Policy, draws: seq<Draw>)
    requires PolicyOk(p) && DrawsOk(draws)
    ensures 0.0 <= Sum(Delays(p, draws)) <= Times(|draws|, p.maxDelay)
  {
    forall i | 0 <= i < |draws|
      ensures 0.0 <= Delays(p, draws)[i] <= p.maxDelay
    {
      BackoffRange(p, i, draws[i]);
    }
    SumCapped(Delays(p, draws), p.maxDelay);
  }

  /** base * (2^n - 1). */
  function GeometricBound(base: real, n: nat): real { base * (Pow2(n) - 1.0) }

  lemma LessOne(base: real, power: real)
    ensures base * (power - 1.0) == base * power - base
  {
  }

  lemma GeometricBoundIs(base: real, n: nat)
    ensures Doubled(base, n) - base == GeometricBound(base, n)
  {
    DoubledIsPower(base, n);
    LessOne(base, Pow2(n));
  }

  lemma TotalDelayDoubled(p: Policy, draws: seq<Draw>)
    requires PolicyOk(p) && DrawsOk(draws) && forall i :: 0 <= i < |draws| ==> !Asked(draws[i])
    ensures Sum(Delays(p, draws)) <= Doubled(p.baseDelay, |draws|) - p.baseDelay
  {
    forall i | 0 <= i < |draws|
      ensures Delays(p, draws)[i] <= Doubled(p.baseDelay, i)
    {
      BackoffRange(p, i, draws[i]);
    }
    SumGeometric(Delays(p, draws), p.baseDelay);
  }

  /** Without a positive Retry-After they sum to at most base * (2^n - 1). */
  lemma TotalDelayGeometric(p: Policy, draws: seq<Draw>)
    requires PolicyOk(p) && DrawsOk(draws) && forall i :: 0 <= i < |draws| ==> !Asked(draws[i])
    ensures Sum(Delays(p, draws)) <= GeometricBound(p.baseDelay, |draws|)
  {
    TotalDelayDoubled(p, draws);
    GeometricBoundIs(p.baseDelay, |draws|);
  }

  lemma {:induction false} DoubledMonotone(x: real, i: nat, j: nat)
    requires x >= 0.0 && i <= j
    ensures Doubled(x, i) <= Doubled(x, j)
  {
    if i == j {
    } else {
      DoubledMonotone(x, i, j - 1);
      DoubledGrows(x, j - 1);
    }
  }

  lemma {:induction false} SumIsGeometric(delays: seq<real>, base: real)
    requires forall i :: 0 <= i < |delays| ==> delays[i] == Doubled(base, i)
    ensures Sum(delays) == Doubled(base, |delays|) - base
  {
    if delays == [] {
    } else {
      SumIsGeometric(delays[..|delays| - 1], base);
    }
  }

  lemma UncappedDelays(p: Policy, draws: seq<Draw>, i: nat)
    requires PolicyOk(p) && !p.jitter && i < |draws| && !Asked(draws[i])
    requires Doubled(p.baseDelay, |draws| - 1) <= p.maxDelay
    ensures Delays(p, draws)[i] == Doubled(p.baseDelay, i)
  {
    DoubledMonotone(p.baseDelay, i, |draws| - 1);
  }

  lemma UncappedSum(p: Policy, draws: seq<Draw>)
    requires PolicyOk(p) && !p.jitter && forall i :: 0 <= i < |draws| ==> !Asked(draws[i])
    requires draws != [] ==> Doubled(p.baseDelay, |draws| - 1) <= p.maxDelay
    ensures Sum(Delays(p, draws)) == Doubled(p.baseDelay, |draws|) - p.baseDelay
  {
    forall i: nat | i < |draws|
      ensures Delays(p, draws)[i] == Doubled(p.baseDelay, i)
    {
      UncappedDelays(p, draws, i);
    }
    SumIsGeometric(Delays(p, draws), p.baseDelay);
  }

  /** Without jitter and Retry-After, and as long as the last delay is not cut, they sum to exactly base * (2^n - 1). */
  lemma TotalDelayExact(p: Policy, draws: seq<Draw>)
    requires PolicyOk(p) && !p.jitter && forall i :: 0 <= i < |draws| ==> !Asked(draws[i])
    requires draws != [] ==> Doubled(p.baseDelay, |draws| - 1) <= p.maxDelay
    ensures Sum(Delays(p, draws)) == GeometricBound(p.baseDelay, |draws|)
  {
    UncappedSum(p, draws);
    GeometricBoundIs(p.baseDelay, |draws|);
  }

  /** A request is retried while `should_retry` holds, so its delays sum to at most max_retries * max_delay. */
  lemma RequestDelayBounded(p: Policy, draws: seq<Draw>)
    requires PolicyOk(p) && DrawsOk(draws) && forall i :: 0 <= i < |draws| ==> ShouldRetry(p, i)
    ensures Sum(Delays(p, draws)) <= Times(p.maxRetries, p.maxDelay)
  {
    TotalDelayCapped(p, draws);
    assert draws != [] ==> ShouldRetry(p, |draws| - 1);
    TimesGrows(|draws|, p.maxRetries, p.maxDelay);
  }

  /** Section 15 of RFC 9110 and section 4 of RFC 6585: server errors and 429 are worth another try. */
  predicate IsRetryableStatus(status: int) { status == 429 || 500 <= status < 600 }
}
