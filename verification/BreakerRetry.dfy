/** The breaker's rejections and the retry delay fit together. */
module BreakerRetry {
  import opened Models
  import opened CircuitBreaker
  import Retry

  /** The cool-down turned the call away, as opposed to a full set of probe slots. */
  predicate CoolingAt(cfg: Config, b: Breaker, now: real) {
    b.state == Open && now - b.openedAt < cfg.openSeconds
  }

  /** A cool-down rejection carries 0 < retry_after <= open_seconds; a full set of slots carries 0. */
  lemma RejectionCarries(cfg: Config, b: Breaker, now: real)
    requires ConfigOk(cfg) && (b.state == Open ==> b.openedAt <= now) && Gate(cfg, b, now).Rejected?
    ensures CoolingAt(cfg, b, now) <==> Gate(cfg, b, now).retryAfter > 0.0
    ensures 0.0 <= Gate(cfg, b, now).retryAfter <= cfg.openSeconds
  {
  }

  /** How long the client waits before it tries a rejected request again. */
  function RetryDelay(p: Retry.Policy, cfg: Config, b: Breaker, now: real, attempt: nat, uniform: Retry.Uniform): real
    requires Gate(cfg, b, now).Rejected?
  {
    Retry.BackoffSeconds(p, attempt, Some(Gate(cfg, b, now).retryAfter), uniform)
  }

  /** Two checks of one request, `i` turned away by a cool-down, `j` the retry after the delay. */
  ghost predicate Retried(
    p: Retry.Policy, cfg: Config, ops: seq<Op>, i: nat, j: nat, attempt: nat, uniform: Retry.Uniform)
  {
    && i < j < |ops| && ops[i].Before? && ops[j].Before?
    && CoolingAt(cfg, After(cfg, ops, i), ops[i].time)
    && Gate(cfg, After(cfg, ops, i), ops[i].time).Rejected?
    && ops[j].time >= ops[i].time + RetryDelay(p, cfg, After(cfg, ops, i), ops[i].time, attempt, uniform)
  }

  /** `openedAt` names the opening whose cool-down rejects. */
  lemma CoolingSince(cfg: Config, ops: seq<Op>, n: nat)
    requires ConfigOk(cfg) && Timely(ops) && n < |ops| && CoolingAt(cfg, After(cfg, ops, n), ops[n].time)
    ensures
      var k := LatestOpening(cfg, ops, n);
      k < n && OpensAt(cfg, ops, k) && After(cfg, ops, n).openedAt == ops[k].time
  {
    OpenHasOpening(cfg, ops, n);
    OpenedAtIsLatest(cfg, ops, n);
  }

  lemma {:induction false} OpenHasOpening(cfg: Config, ops: seq<Op>, n: nat)
    requires n <= |ops| && After(cfg, ops, n).state == Open
    ensures LatestOpening(cfg, ops, n) < n && OpensAt(cfg, ops, LatestOpening(cfg, ops, n))
  {
    if !OpensAt(cfg, ops, n - 1) {
      OpenHasOpening(cfg, ops, n - 1);
    }
  }

  /**
    When open_seconds <= max_delay, the cool-down of one opening turns a request away at most once: if
    its retry is turned away by a cool-down again, the breaker has opened anew in between.
  */
  lemma RejectedOncePerOpening(
    p: Retry.Policy, cfg: Config, ops: seq<Op>, i: nat, j: nat, attempt: nat, uniform: Retry.Uniform)
    requires ConfigOk(cfg) && Timely(ops) && Retried(p, cfg, ops, i, j, attempt, uniform)
    requires cfg.openSeconds <= p.maxDelay
    requires CoolingAt(cfg, After(cfg, ops, j), ops[j].time)
    ensures LatestOpening(cfg, ops, i) < LatestOpening(cfg, ops, j)
  {
    CoolingSince(cfg, ops, i);
    CoolingSince(cfg, ops, j);
    var k := LatestOpening(cfg, ops, i);
    LatestIsLatest(cfg, ops, j, k);
    assert ops[k].time <= ops[i].time;
    RejectionCarries(cfg, After(cfg, ops, i), ops[i].time);
  }

  /** The retry that comes back exactly on time is turned away again if and only if max_delay cut it short. */
  lemma CutShortIffRejected(p: Retry.Policy, cfg: Config, b: Breaker, now: real, attempt: nat, uniform: Retry.Uniform)
    requires ConfigOk(cfg) && b.state == Open && b.openedAt <= now && Gate(cfg, b, now).Rejected?
    ensures
      var back := now + RetryDelay(p, cfg, b, now, attempt, uniform);
      CoolingAt(cfg, b, back) <==> p.maxDelay < Gate(cfg, b, now).retryAfter
  {
  }
}
