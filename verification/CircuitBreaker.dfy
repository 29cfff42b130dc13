/** The per-host circuit breaker (async_hardened_client/circuit_breaker.py), with time as a real. */
module CircuitBreaker {

  datatype Config = Config(
    failureThreshold: nat,
    failureRate: real,
    rollingWindow: nat,
    openSeconds: real,
    halfOpenMaxProbes: nat)

  predicate ConfigOk(cfg: Config) {
    cfg.failureThreshold > 0 && cfg.rollingWindow > 0 && cfg.openSeconds > 0.0 && cfg.halfOpenMaxProbes > 0
  }

  datatype Circuit = Closed | Open | HalfOpen

  datatype Breaker = Breaker(
    state: Circuit,
    consecutiveFailures: nat,
    openedAt: real,
    inflightProbes: nat,
    outcomes: seq<bool>)

  const NEW_BREAKER := Breaker(Closed, 0, 0.0, 0, [])

  datatype Verdict = Admitted | Rejected(retryAfter: real)

  /** The last `n` elements. */
  function LastN(s: seq<bool>, n: nat): seq<bool> { if |s| <= n then s else s[|s| - n..] }

  /** The state that `before_call` finds or makes before it looks for a probe slot. */
  function CooledDown(cfg: Config, b: Breaker, now: real): Breaker {
    if b.state == Open && now - b.openedAt >= cfg.openSeconds then b.(state := HalfOpen, inflightProbes := 0) else b
  }

  function Gate(cfg: Config, b: Breaker, now: real): Verdict {
    var b' := CooledDown(cfg, b, now);
    if b'.state == Open then Rejected(cfg.openSeconds - (now - b.openedAt))
    else if b'.state == HalfOpen && b'.inflightProbes >= cfg.halfOpenMaxProbes then Rejected(0.0)
    else Admitted
  }

  function BeforeCall(cfg: Config, b: Breaker, now: real): Breaker {
    var b' := CooledDown(cfg, b, now);
    if b'.state == HalfOpen && b'.inflightProbes < cfg.halfOpenMaxProbes
    then b'.(inflightProbes := b'.inflightProbes + 1)
    else b'
  }

  function OnSuccess(cfg: Config, b: Breaker): Breaker {
    var b' := b.(consecutiveFailures := 0, outcomes := LastN(b.outcomes + [true], cfg.rollingWindow));
    if b.state == HalfOpen then b'.(state := Closed, inflightProbes := 0, outcomes := []) else b'
  }

  function Failures(outcomes: seq<bool>): nat {
    if outcomes == [] then 0 else Failures(outcomes[1..]) + if outcomes[0] then 0 else 1
  }

  function FailureRate(outcomes: seq<bool>): real {
    if outcomes == [] then 0.0 else Failures(outcomes) as real / |outcomes| as real
  }

  function OpenNow(b: Breaker, now: real): Breaker {
    b.(state := Open, openedAt := now, inflightProbes := 0)
  }

  predicate Trips(cfg: Config, consecutive: nat, window: seq<bool>) {
    || consecutive >= cfg.failureThreshold
    || (|window| == cfg.rollingWindow && FailureRate(window) >= cfg.failureRate)
  }

  function OnFailure(cfg: Config, b: Breaker, now: real): Breaker {
    var b' := b.(consecutiveFailures := b.consecutiveFailures + 1,
                 outcomes := LastN(b.outcomes + [false], cfg.rollingWindow));
    if b.state == HalfOpen || (b.state == Closed && Trips(cfg, b'.consecutiveFailures, b'.outcomes))
    then OpenNow(b', now)
    else b'
  }

  // ----- histories

  datatype Op = Before(time: real) | Succeeded(time: real) | Failed(time: real)

  function Do(cfg: Config, b: Breaker, op: Op): Breaker {
    match op
    case Before(now) => BeforeCall(cfg, b, now)
    case Succeeded(_) => OnSuccess(cfg, b)
    case Failed(now) => OnFailure(cfg, b, now)
  }

  /** The breaker after the first `n` operations. */
  function After(cfg: Config, ops: seq<Op>, n: nat): Breaker
    requires n <= |ops|
  {
    if n == 0 then NEW_BREAKER else Do(cfg, After(cfg, ops, n - 1), ops[n - 1])
  }

  /** The outcomes reported by the first `n` operations. */
  function Outcomes(ops: seq<Op>, n: nat): seq<bool>
    requires n <= |ops|
  {
    if n == 0 then []
    else Outcomes(ops, n - 1) + if ops[n - 1].Before? then [] else [ops[n - 1].Succeeded?]
  }

  predicate ClosesAt(cfg: Config, ops: seq<Op>, i: nat)
    requires i < |ops|
  {
    After(cfg, ops, i).state != Closed && After(cfg, ops, i + 1).state == Closed
  }

  predicate OpensAt(cfg: Config, ops: seq<Op>, i: nat)
    requires i < |ops|
  {
    After(cfg, ops, i).state != Open && After(cfg, ops, i + 1).state == Open
  }

  predicate AdmitsAt(cfg: Config, ops: seq<Op>, i: nat)
    requires i < |ops|
  {
    ops[i].Before? && Gate(cfg, After(cfg, ops, i), ops[i].time) == Admitted
  }

  /** The outcomes reported since the breaker last closed. */
  function SinceClose(cfg: Config, ops: seq<Op>, n: nat): seq<bool>
    requires n <= |ops|
  {
    if n == 0 || ClosesAt(cfg, ops, n - 1) then []
    else SinceClose(cfg, ops, n - 1) + if ops[n - 1].Before? then [] else [ops[n - 1].Succeeded?]
  }

  /** Length of the trailing run of failures. */
  function Trailing(outcomes: seq<bool>): nat {
    if outcomes == [] || outcomes[|outcomes| - 1] then 0 else 1 + Trailing(outcomes[..|outcomes| - 1])
  }

  lemma LastNPush(s: seq<bool>, n: nat, x: bool)
    ensures LastN(LastN(s, n) + [x], n) == LastN(s + [x], n)
  {
  }

  lemma TrailingPush(s: seq<bool>, x: bool)
    ensures Trailing(s + [x]) == if x then 0 else Trailing(s) + 1
  {
    assert (s + [x])[..|s|] == s;
  }

  /** `b` is what all outcomes `all` and those since the last close, `recent`, come down to. */
  predicate Summarises(cfg: Config, b: Breaker, all: seq<bool>, recent: seq<bool>) {
    && b.consecutiveFailures == Trailing(all)
    && b.outcomes == LastN(recent, cfg.rollingWindow)
    && (b.state == Closed ==> Trailing(all) < cfg.failureThreshold)
  }

  lemma CallSummarised(cfg: Config, b: Breaker, all: seq<bool>, recent: seq<bool>, now: real)
    requires Summarises(cfg, b, all, recent)
    ensures Summarises(cfg, BeforeCall(cfg, b, now), all, recent)
    ensures BeforeCall(cfg, b, now).state == Closed <==> b.state == Closed
  {
  }

  lemma ReportSummarised(cfg: Config, b: Breaker, all: seq<bool>, recent: seq<bool>, ok: bool, now: real)
    requires ConfigOk(cfg) && Summarises(cfg, b, all, recent)
    ensures
      var b' := if ok then OnSuccess(cfg, b) else OnFailure(cfg, b, now);
      var closes := b.state != Closed && b'.state == Closed;
      Summarises(cfg, b', all + [ok], if closes then [] else recent + [ok])
  {
    TrailingPush(all, ok);
    LastNPush(recent, cfg.rollingWindow, ok);
  }

  /**
    The counters summarise the history: `_consecutive_failures` is the trailing failure run of all
    outcomes ever reported, `_outcomes` is the last `rolling_window` of those reported since the last
    close, and a closed breaker has a trailing run below the threshold.
  */
  lemma {:induction false} SummaryRefinesHistory(cfg: Config, ops: seq<Op>, n: nat)
    requires ConfigOk(cfg) && n <= |ops|
    ensures Summarises(cfg, After(cfg, ops, n), Outcomes(ops, n), SinceClose(cfg, ops, n))
  {
    if n == 0 {
    } else {
      SummaryRefinesHistory(cfg, ops, n - 1);
      var b, op := After(cfg, ops, n - 1), ops[n - 1];
      if op.Before? {
        CallSummarised(cfg, b, Outcomes(ops, n - 1), SinceClose(cfg, ops, n - 1), op.time);
        assert Outcomes(ops, n) == Outcomes(ops, n - 1);
        assert SinceClose(cfg, ops, n) == SinceClose(cfg, ops, n - 1);
      } else {
        ReportSummarised(cfg, b, Outcomes(ops, n - 1), SinceClose(cfg, ops, n - 1), op.Succeeded?, op.time);
      }
    }
  }

  /** The trailing run has length `k` or more exactly when the last `k` outcomes are failures. */
  lemma {:induction false} TrailingMeans(s: seq<bool>, k: nat)
    ensures Trailing(s) >= k <==> |s| >= k && forall i :: |s| - k <= i < |s| ==> !s[i]
  {
    if k == 0 || s == [] || s[|s| - 1] {
    } else {
      var rest := s[..|s| - 1];
      TrailingMeans(rest, k - 1);
      assert forall i :: 0 <= i < |rest| ==> s[i] == rest[i];
    }
  }

  lemma {:induction false} FailuresCounted(s: seq<bool>)
    ensures Failures(s) == multiset(s)[false]
  {
    if s == [] {
    } else {
      FailuresCounted(s[1..]);
      assert s == [s[0]] + s[1..];
    }
  }

  lemma Share(count: real, size: real)
    requires size > 0.0
    ensures count / size * size == count
  {
  }

  /** The failure rate is the share of failures in the window. */
  lemma RateIsShare(s: seq<bool>)
    ensures FailureRate(s) * |s| as real == multiset(s)[false] as real
  {
    FailuresCounted(s);
    if s != [] {
      Share(Failures(s) as real, |s| as real);
    }
  }

  lemma ShareReaches(share: real, size: real, count: real, rate: real)
    requires size > 0.0 && share * size == count
    ensures share >= rate <==> count >= rate * size
  {
    if share >= rate {
      assert (share - rate) * size >= 0.0;
    } else {
      assert (rate - share) * size > 0.0;
    }
  }

  /** `rate` * `size`. */
  function Quota(rate: real, size: nat): real { rate * size as real }

  lemma RateReaches(s: seq<bool>, rate: real)
    requires s != []
    ensures FailureRate(s) >= rate <==> multiset(s)[false] as real >= Quota(rate, |s|)
  {
    RateIsShare(s);
    ShareReaches(FailureRate(s), |s| as real, multiset(s)[false] as real, rate);
  }

  /**
    When a closed breaker must open, in terms of the outcomes: the last `failure_threshold` of all reported
    ones are failures, or of the last `rolling_window` since the last close the given share are.
  */
  ghost predicate MustOpen(cfg: Config, all: seq<bool>, recent: seq<bool>) {
    || (|all| >= cfg.failureThreshold && forall i :: |all| - cfg.failureThreshold <= i < |all| ==> !all[i])
    || (|recent| >= cfg.rollingWindow
        && multiset(recent[|recent| - cfg.rollingWindow..])[false] as real
             >= Quota(cfg.failureRate, cfg.rollingWindow))
  }

  lemma TripsIs(cfg: Config, all: seq<bool>, recent: seq<bool>)
    requires ConfigOk(cfg)
    ensures Trips(cfg, Trailing(all), LastN(recent, cfg.rollingWindow)) <==> MustOpen(cfg, all, recent)
  {
    TrailingMeans(all, cfg.failureThreshold);
    if |recent| >= cfg.rollingWindow {
      var window := recent[|recent| - cfg.rollingWindow..];
      assert LastN(recent, cfg.rollingWindow) == window;
      RateReaches(window, cfg.failureRate);
    }
  }

  lemma OpensOn(cfg: Config, b: Breaker, op: Op, all: seq<bool>, recent: seq<bool>)
    requires ConfigOk(cfg) && Summarises(cfg, b, all, recent) && b.state == Closed
    ensures Do(cfg, b, op).state == Open <==> op.Failed? && MustOpen(cfg, all + [false], recent + [false])
    ensures Do(cfg, b, op).state != Open ==> Do(cfg, b, op).state == Closed
  {
    TrailingPush(all, false);
    LastNPush(recent, cfg.rollingWindow, false);
    TripsIs(cfg, all + [false], recent + [false]);
  }

  /**
    A closed breaker opens exactly on a failure after which the last `failure_threshold` outcomes of the
    whole history are failures, or so are the given share of the last `rolling_window` since the last close.
  */
  lemma OpensExactlyWhen(cfg: Config, ops: seq<Op>, n: nat)
    requires ConfigOk(cfg) && n < |ops| && After(cfg, ops, n).state == Closed
    ensures
      OpensAt(cfg, ops, n) <==>
        ops[n].Failed? && MustOpen(cfg, Outcomes(ops, n) + [false], SinceClose(cfg, ops, n) + [false])
    ensures !OpensAt(cfg, ops, n) ==> After(cfg, ops, n + 1).state == Closed
  {
    SummaryRefinesHistory(cfg, ops, n);
    OpensOn(cfg, After(cfg, ops, n), ops[n], Outcomes(ops, n), SinceClose(cfg, ops, n));
    assert After(cfg, ops, n + 1) == Do(cfg, After(cfg, ops, n), ops[n]);
  }

  // ----- timing

  ghost predicate Timely(ops: seq<Op>) {
    forall i, j :: 0 <= i <= j < |ops| ==> ops[i].time <= ops[j].time
  }

  /** The latest opening among the first `n` operations; `n` itself when there is none. */
  function LatestOpening(cfg: Config, ops: seq<Op>, n: nat): nat
    requires n <= |ops|
    ensures LatestOpening(cfg, ops, n) <= n
  {
    if n == 0 then 0
    else if OpensAt(cfg, ops, n - 1) then n - 1
    else
      var k := LatestOpening(cfg, ops, n - 1);
      if k == n - 1 then n else k
  }

  lemma {:induction false} LatestIsLatest(cfg: Config, ops: seq<Op>, n: nat, i: nat)
    requires i < n <= |ops| && OpensAt(cfg, ops, i)
    ensures i <= LatestOpening(cfg, ops, n) < n
  {
    if i < n - 1 {
      LatestIsLatest(cfg, ops, n - 1, i);
    }
  }

  /** After an opening the breaker stays open until `open_seconds` have passed. */
  lemma {:induction false} OpenedAtIsLatest(cfg: Config, ops: seq<Op>, n: nat)
    requires ConfigOk(cfg) && Timely(ops) && n <= |ops| && LatestOpening(cfg, ops, n) < n
    ensures
      var b, k := After(cfg, ops, n), LatestOpening(cfg, ops, n);
      b.openedAt == ops[k].time && (b.state != Open ==> ops[n - 1].time - ops[k].time >= cfg.openSeconds)
  {
    if !OpensAt(cfg, ops, n - 1) {
      OpenedAtIsLatest(cfg, ops, n - 1);
      assert n >= 2 && ops[n - 2].time <= ops[n - 1].time;
    }
  }

  /** Any two openings of a run are at least `open_seconds` apart. */
  lemma OpeningsApart(cfg: Config, ops: seq<Op>, i: nat, j: nat)
    requires ConfigOk(cfg) && Timely(ops) && i < j < |ops| && OpensAt(cfg, ops, i) && OpensAt(cfg, ops, j)
    ensures ops[j].time - ops[i].time >= cfg.openSeconds
  {
    LatestIsLatest(cfg, ops, j, i);
    OpenedAtIsLatest(cfg, ops, j);
    assert ops[j - 1].time <= ops[j].time;
    assert ops[i].time <= ops[LatestOpening(cfg, ops, j)].time;
  }

  /** No call is admitted within `open_seconds` of an opening. */
  lemma NoAdmissionWhileCooling(cfg: Config, ops: seq<Op>, i: nat, j: nat)
    requires ConfigOk(cfg) && Timely(ops) && i < j < |ops| && OpensAt(cfg, ops, i) && AdmitsAt(cfg, ops, j)
    ensures ops[j].time - ops[i].time >= cfg.openSeconds
  {
    LatestIsLatest(cfg, ops, j, i);
    OpenedAtIsLatest(cfg, ops, j);
    assert ops[j - 1].time <= ops[j].time;
    assert ops[i].time <= ops[LatestOpening(cfg, ops, j)].time;
  }

  /** How many calls operations `i`, .., `j - 1` admit. */
  function Admissions(cfg: Config, ops: seq<Op>, i: nat, j: nat): nat
    requires i <= j <= |ops|
    decreases j
  {
    if i == j then 0 else Admissions(cfg, ops, i, j - 1) + if AdmitsAt(cfg, ops, j - 1) then 1 else 0
  }

  /**
    From an opening on, as long as the breaker neither opens again nor closes, it admits at most
    `half_open_max_probes` calls: none while open, and as many as `_inflight_probes` says once half-open.
  */
  lemma {:induction false} ProbesBounded(cfg: Config, ops: seq<Op>, i: nat, j: nat)
    requires ConfigOk(cfg) && i < j <= |ops| && OpensAt(cfg, ops, i)
    requires forall m :: i < m < j ==> !OpensAt(cfg, ops, m) && !ClosesAt(cfg, ops, m)
    ensures
      var b, n := After(cfg, ops, j), Admissions(cfg, ops, i + 1, j);
      && n <= cfg.halfOpenMaxProbes
      && ((b.state == Open && n == 0) || (b.state == HalfOpen && n == b.inflightProbes && n >= 1))
    decreases j
  {
    if j > i + 1 {
      ProbesBounded(cfg, ops, i, j - 1);
      assert !OpensAt(cfg, ops, j - 1) && !ClosesAt(cfg, ops, j - 1);
    }
  }

  /** A breaker that is not closed has opened, and has neither opened again nor closed since its latest opening. */
  lemma {:induction false} SinceLatestOpening(cfg: Config, ops: seq<Op>, n: nat)
    requires n <= |ops| && After(cfg, ops, n).state != Closed
    ensures
      var k := LatestOpening(cfg, ops, n);
      && k < n && OpensAt(cfg, ops, k)
      && forall m :: k < m < n ==> !OpensAt(cfg, ops, m) && !ClosesAt(cfg, ops, m)
  {
    if n == 0 || OpensAt(cfg, ops, n - 1) {
    } else {
      SinceLatestOpening(cfg, ops, n - 1);
    }
  }

  lemma GateAdmits(cfg: Config, b: Breaker, now: real)
    requires ConfigOk(cfg)
    ensures Gate(cfg, b, now) == Admitted <==>
      || b.state == Closed
      || (b.state == Open && now - b.openedAt >= cfg.openSeconds)
      || (b.state == HalfOpen && b.inflightProbes < cfg.halfOpenMaxProbes)
  {
  }

  lemma OpenAdmits(cfg: Config, ops: seq<Op>, n: nat)
    requires ConfigOk(cfg) && Timely(ops) && n < |ops| && ops[n].Before? && After(cfg, ops, n).state == Open
    ensures
      var k := LatestOpening(cfg, ops, n);
      k < n && (AdmitsAt(cfg, ops, n) <==> ops[n].time - ops[k].time >= cfg.openSeconds)
  {
    SinceLatestOpening(cfg, ops, n);
    OpenedAtIsLatest(cfg, ops, n);
    GateAdmits(cfg, After(cfg, ops, n), ops[n].time);
  }

  lemma ProbesSinceOpening(cfg: Config, ops: seq<Op>, n: nat)
    requires ConfigOk(cfg) && n <= |ops| && After(cfg, ops, n).state == HalfOpen
    ensures LatestOpening(cfg, ops, n) < n
    ensures Admissions(cfg, ops, LatestOpening(cfg, ops, n) + 1, n) == After(cfg, ops, n).inflightProbes
  {
    SinceLatestOpening(cfg, ops, n);
    ProbesBounded(cfg, ops, LatestOpening(cfg, ops, n), n);
  }

  lemma HalfOpenAdmits(cfg: Config, ops: seq<Op>, n: nat)
    requires ConfigOk(cfg) && n < |ops| && ops[n].Before? && After(cfg, ops, n).state == HalfOpen
    ensures
      var k := LatestOpening(cfg, ops, n);
      k < n && (AdmitsAt(cfg, ops, n) <==> Admissions(cfg, ops, k + 1, n) < cfg.halfOpenMaxProbes)
  {
    ProbesSinceOpening(cfg, ops, n);
    GateAdmits(cfg, After(cfg, ops, n), ops[n].time);
  }

  /**
    Who is let in, exactly: everybody while the breaker is closed; after the cool-down of the latest opening
    the first call; and then, until it closes or opens again, as many as there are probes.
  */
  lemma AdmitsExactlyWhen(cfg: Config, ops: seq<Op>, n: nat)
    requires ConfigOk(cfg) && Timely(ops) && n < |ops| && ops[n].Before?
    ensures
      var k := LatestOpening(cfg, ops, n);
      match After(cfg, ops, n).state
      case Closed => AdmitsAt(cfg, ops, n)
      case Open => k < n && (AdmitsAt(cfg, ops, n) <==> ops[n].time - ops[k].time >= cfg.openSeconds)
      case HalfOpen => k < n && (AdmitsAt(cfg, ops, n) <==> Admissions(cfg, ops, k + 1, n) < cfg.halfOpenMaxProbes)
  {
    match After(cfg, ops, n).state
    case Closed => GateAdmits(cfg, After(cfg, ops, n), ops[n].time);
    case Open => OpenAdmits(cfg, ops, n);
    case HalfOpen => HalfOpenAdmits(cfg, ops, n);
  }

  // ----- calls

  /**
    The breaker and its callers: `active` calls were admitted and have not ended, `probing` ones were
    admitted since the breaker went half-open, `reported` ones have told it their outcome.
  */
  datatype World = World(b: Breaker, active: set<nat>, probing: set<nat>, reported: set<nat>)

  const NEW_WORLD := World(NEW_BREAKER, {}, {}, {})

  datatype Event =
    | Call(id: nat, now: real)
    | Report(id: nat, ok: bool, now: real)
    | Silent(id: nat)                       // the call ends without reporting

  predicate Possible(w: World, e: Event) {
    match e
    case Call(id, _) => id !in w.active && id !in w.probing && id !in w.reported
    case Report(id, _, _) => id in w.active
    case Silent(id) => id in w.active
  }

  function Happen(cfg: Config, w: World, e: Event): World {
    match e
    case Call(id, now) =>
      var admitted := Gate(cfg, w.b, now) == Admitted;
      var entering := w.b.state != HalfOpen;
      World(BeforeCall(cfg, w.b, now),
            if admitted then w.active + {id} else w.active,
            (if entering then {} else w.probing) + if admitted then {id} else {},
            w.reported)
    case Report(id, ok, now) =>
      World(if ok then OnSuccess(cfg, w.b) else OnFailure(cfg, w.b, now), w.active - {id}, w.probing, w.reported + {id})
    case Silent(id) => w.(active := w.active - {id})
  }

  ghost predicate Events(w: World, cfg: Config, es: seq<Event>, w': World)
    decreases |es|
  {
    if es == [] then w' == w
    else Possible(w, es[0]) && Events(Happen(cfg, w, es[0]), cfg, es[1..], w')
  }

  /** A half-open breaker has counted its probes exactly, and none of them has reported. */
  ghost predicate ProbesCounted(cfg: Config, w: World) {
    && w.active !! w.reported
    && (w.b.state == HalfOpen ==>
          && |w.probing| == w.b.inflightProbes && 1 <= w.b.inflightProbes <= cfg.halfOpenMaxProbes
          && w.probing !! w.reported)
  }

  lemma CountedStep(cfg: Config, w: World, e: Event)
    requires ConfigOk(cfg) && ProbesCounted(cfg, w) && Possible(w, e)
    ensures ProbesCounted(cfg, Happen(cfg, w, e))
  {
  }

  lemma {:induction false} ProbesAreCounted(cfg: Config, w: World, es: seq<Event>, w': World)
    requires ConfigOk(cfg) && ProbesCounted(cfg, w) && Events(w, cfg, es, w')
    ensures ProbesCounted(cfg, w')
    decreases |es|
  {
    if es == [] {
    } else {
      CountedStep(cfg, w, es[0]);
      ProbesAreCounted(cfg, Happen(cfg, w, es[0]), es[1..], w');
    }
  }

  /** Any report, of a probe or of an older call, takes a half-open breaker out of that state. */
  lemma ReportEscapes(cfg: Config, w: World, id: nat, ok: bool, now: real)
    requires w.b.state == HalfOpen
    ensures Happen(cfg, w, Report(id, ok, now)).b.state == if ok then Closed else Open
  {
  }

  /** Every slot is taken and nobody is left to report. */
  predicate Wedged(cfg: Config, w: World) {
    w.b.state == HalfOpen && w.b.inflightProbes >= cfg.halfOpenMaxProbes && w.active == {}
  }

  /** A wedged breaker rejects every later call, for ever. */
  lemma {:induction false} WedgedForever(cfg: Config, w: World, es: seq<Event>, w': World)
    requires Wedged(cfg, w) && Events(w, cfg, es, w')
    ensures w'.b == w.b && Wedged(cfg, w')
    ensures forall i :: 0 <= i < |es| ==> es[i].Call? && Gate(cfg, w.b, es[i].now) == Rejected(0.0)
    decreases |es|
  {
    if es == [] {
    } else {
      WedgedForever(cfg, Happen(cfg, w, es[0]), es[1..], w');
      forall i | 0 <= i < |es|
        ensures es[i].Call? && Gate(cfg, w.b, es[i].now) == Rejected(0.0)
      {
        if i > 0 {
          assert es[i] == es[1..][i - 1];
        }
      }
    }
  }

  /** The clock is monotonic. */
  ghost predicate InTime(es: seq<Event>) {
    forall i, j :: 0 <= i < j < |es| && !es[i].Silent? && !es[j].Silent? ==> es[i].now <= es[j].now
  }

  /** Some continuation takes the breaker out of the half-open state. */
  ghost predicate CanLeave(cfg: Config, w: World) {
    exists es, w' :: Events(w, cfg, es, w') && InTime(es) && w'.b.state != HalfOpen
  }

  /** A half-open breaker can recover if and only if a slot is free or an admitted call is still active. */
  lemma LeavesUnlessWedged(cfg: Config, w: World, unused: nat, now: real)
    requires w.b.state == HalfOpen && Possible(w, Call(unused, now))
    ensures CanLeave(cfg, w) <==> !Wedged(cfg, w)
  {
    if Wedged(cfg, w) {
      forall es, w' | Events(w, cfg, es, w')
        ensures w'.b.state == HalfOpen
      {
        WedgedForever(cfg, w, es, w');
      }
    } else if id :| id in w.active {
      var es := [Report(id, true, now)];
      var w' := Happen(cfg, w, es[0]);
      ReportEscapes(cfg, w, id, true, now);
      assert es[1..] == [] && Events(w', cfg, es[1..], w');
      assert Events(w, cfg, es, w') && InTime(es);
    } else {
      TwoEvents(cfg, w, Call(unused, now), Report(unused, true, now));
      ReportEscapes(cfg, Happen(cfg, w, Call(unused, now)), unused, true, now);
      assert InTime([Call(unused, now), Report(unused, true, now)]);
    }
  }

  lemma {:induction false} EventsConcat(cfg: Config, w: World, es: seq<Event>, w': World, fs: seq<Event>, w'': World)
    requires Events(w, cfg, es, w') && Events(w', cfg, fs, w'')
    ensures Events(w, cfg, es + fs, w'')
    decreases |es|
  {
    if es == [] {
      assert es + fs == fs;
    } else {
      EventsConcat(cfg, Happen(cfg, w, es[0]), es[1..], w', fs, w'');
      assert (es + fs)[0] == es[0] && (es + fs)[1..] == es[1..] + fs;
    }
  }

  lemma TwoEvents(cfg: Config, w: World, e: Event, f: Event)
    requires Possible(w, e) && Possible(Happen(cfg, w, e), f)
    ensures Events(w, cfg, [e, f], Happen(cfg, Happen(cfg, w, e), f))
  {
    var w1, w2 := Happen(cfg, w, e), Happen(cfg, Happen(cfg, w, e), f);
    assert [e, f][1..] == [f] && [f][1..] == [];
    assert Events(w2, cfg, [], w2) && Events(w1, cfg, [f], w2);
  }

  /** Nobody is active, and no call numbered `id` or above has been made. */
  ghost predicate Idle(w: World, id: nat) {
    w.active == {} && forall x :: x in w.probing || x in w.reported ==> x < id
  }

  /** Everything that has a time happens at `now`. */
  ghost predicate AllAt(es: seq<Event>, now: real) {
    forall i :: 0 <= i < |es| && !es[i].Silent? ==> es[i].now == now
  }

  lemma OneAfterTheOther(es: seq<Event>, early: real, fs: seq<Event>, late: real)
    requires AllAt(es, early) && AllAt(fs, late) && early <= late
    ensures InTime(es + fs)
  {
  }

  lemma {:induction false} CanOpen(cfg: Config, w: World, id: nat) returns (es: seq<Event>, w': World, id': nat)
    requires ConfigOk(cfg) && Idle(w, id) && w.b.state == Closed
    ensures Events(w, cfg, es, w') && Idle(w', id') && w'.b.state == Open && w'.b.openedAt == 0.0 && AllAt(es, 0.0)
    decreases cfg.failureThreshold - w.b.consecutiveFailures
  {
    var w1 := Happen(cfg, Happen(cfg, w, Call(id, 0.0)), Report(id, false, 0.0));
    TwoEvents(cfg, w, Call(id, 0.0), Report(id, false, 0.0));
    assert w1.active == {};
    if w1.b.state == Open {
      es, w', id' := [Call(id, 0.0), Report(id, false, 0.0)], w1, id + 1;
    } else {
      var fs;
      fs, w', id' := CanOpen(cfg, w1, id + 1);
      es := [Call(id, 0.0), Report(id, false, 0.0)] + fs;
      EventsConcat(cfg, w, [Call(id, 0.0), Report(id, false, 0.0)], w1, fs, w');
    }
  }

  lemma {:induction false} CanFill(cfg: Config, w: World, id: nat, now: real) returns (es: seq<Event>, w': World)
    requires ConfigOk(cfg) && Idle(w, id) && w.b.state == HalfOpen
    ensures Events(w, cfg, es, w') && Wedged(cfg, w') && AllAt(es, now)
    decreases cfg.halfOpenMaxProbes - w.b.inflightProbes
  {
    if w.b.inflightProbes >= cfg.halfOpenMaxProbes {
      es, w' := [], w;
    } else {
      var w1 := Happen(cfg, Happen(cfg, w, Call(id, now)), Silent(id));
      TwoEvents(cfg, w, Call(id, now), Silent(id));
      assert w1.active == {};
      var fs;
      fs, w' := CanFill(cfg, w1, id + 1, now);
      es := [Call(id, now), Silent(id)] + fs;
      EventsConcat(cfg, w, [Call(id, now), Silent(id)], w1, fs, w');
    }
  }

  /**
    Whatever the configuration, some history wedges a new breaker: failures open it, and after the
    cool-down every probe ends silently, as a probe that is answered 429 does.
  */
  lemma WedgeReachable(cfg: Config)
    requires ConfigOk(cfg)
    ensures exists es, w' :: Events(NEW_WORLD, cfg, es, w') && InTime(es) && Wedged(cfg, w')
  {
    var es, w, id := CanOpen(cfg, NEW_WORLD, 0);
    var now := cfg.openSeconds;
    var w1 := Happen(cfg, Happen(cfg, w, Call(id, now)), Silent(id));
    TwoEvents(cfg, w, Call(id, now), Silent(id));
    assert w1.active == {};
    EventsConcat(cfg, NEW_WORLD, es, w, [Call(id, now), Silent(id)], w1);
    var fs, w2 := CanFill(cfg, w1, id + 1, now);
    EventsConcat(cfg, NEW_WORLD, es + [Call(id, now), Silent(id)], w1, fs, w2);
    OneAfterTheOther(es, 0.0, [Call(id, now), Silent(id)] + fs, now);
    assert es + ([Call(id, now), Silent(id)] + fs) == es + [Call(id, now), Silent(id)] + fs;
  }

  // ----- the object

  class CircuitBreaker {
    const cfg: Config
    var state: Circuit
    var consecutiveFailures: nat
    var openedAt: real
    var inflightProbes: nat
    var outcomes: seq<bool>

    function View(): Breaker
      reads this
    {
      Breaker(state, consecutiveFailures, openedAt, inflightProbes, outcomes)
    }

    constructor (cfg: Config)
      ensures this.cfg == cfg && View() == NEW_BREAKER
    {
      this.cfg := cfg;
      state, consecutiveFailures, openedAt, inflightProbes, outcomes := Closed, 0, 0.0, 0, [];
    }

    /** `before_call`; raising CircuitOpenError is returning `Rejected`. */
    method Enter(now: real) returns (v: Verdict)
      modifies this
      ensures v == Gate(cfg, old(View()), now) && View() == BeforeCall(cfg, old(View()), now)
    {
      if state == Open {
        if now - openedAt >= cfg.openSeconds {
          state := HalfOpen;
          inflightProbes := 0;
        } else {
          return Rejected(cfg.openSeconds - (now - openedAt));
        }
      }
      if state == HalfOpen {
        if inflightProbes >= cfg.halfOpenMaxProbes {
          return Rejected(0.0);
        }
        inflightProbes := inflightProbes + 1;
      }
      return Admitted;
    }

    /** `deque(maxlen=rolling_window).append`. */
    method Append(ok: bool)
      modifies this`outcomes
      ensures outcomes == LastN(old(outcomes) + [ok], cfg.rollingWindow)
    {
      outcomes := outcomes + [ok];
      if |outcomes| > cfg.rollingWindow {
        outcomes := outcomes[|outcomes| - cfg.rollingWindow..];
      }
    }

    /** `on_success`. */
    method Success()
      modifies this
      ensures View() == OnSuccess(cfg, old(View()))
    {
      consecutiveFailures := 0;
      Append(true);
      if state == HalfOpen {
        state := Closed;
        inflightProbes := 0;
        outcomes := [];
      }
    }

    /** `on_failure`. */
    method Failure(now: real)
      modifies this
      ensures View() == OnFailure(cfg, old(View()), now)
    {
      consecutiveFailures := consecutiveFailures + 1;
      Append(false);
      if state == HalfOpen {
        Trip(now);
        return;
      }
      if state == Closed {
        if consecutiveFailures >= cfg.failureThreshold {
          Trip(now);
          return;
        }
        var rate := RateOfFailure();
        if |outcomes| == cfg.rollingWindow && rate >= cfg.failureRate {
          Trip(now);
        }
      }
    }

    /** `_open_now`. */
    method Trip(now: real)
      modifies this
      ensures View() == OpenNow(old(View()), now)
    {
      state := Open;
      openedAt := now;
      inflightProbes := 0;
    }

    /** `_failure_rate` sums over the deque. */
    method RateOfFailure() returns (rate: real)
      ensures rate == FailureRate(outcomes) && rate * |outcomes| as real == multiset(outcomes)[false] as real
    {
      RateIsShare([]);
      if outcomes == [] {
        return 0.0;
      }
      var failures := 0;
      for i := 0 to |outcomes|
        invariant failures + Failures(outcomes[i..]) == Failures(outcomes)
      {
        assert outcomes[i..][1..] == outcomes[i + 1..];
        if !outcomes[i] {
          failures := failures + 1;
        }
      }
      RateIsShare(outcomes);
      return failures as real / |outcomes| as real;
    }
  }
}
