/**
  The token bucket (async_hardened_client/rate_limiter.py), with time and tokens as reals.

  `Level` is the lazily refilled state; `Consumed` is the whole history.  The main theorem ties the
  two: a request is granted exactly when the history stays inside the envelope of the bucket.
*/
module RateLimiter {
  import Models

  datatype Rate = Rate(perSecond: real, burst: real)

  /** `_tokens` and `_last`. */
  datatype Level = Level(tokens: real, last: real)

  predicate RateOk(r: Rate) { r.perSecond > 0.0 && r.burst > 0.0 }

  function Min(x: real, y: real): real { if x <= y then x else y }

  /** The tokens that accrue between two instants; every proof below goes through its lemmas. */
  function Accrued(r: Rate, from: real, to: real): real { (to - from) * r.perSecond }

  lemma Product(x: real, y: real)
    requires x >= 0.0 && y >= 0.0
    ensures x * y >= 0.0
  {
  }

  lemma AccruedNonNegative(r: Rate, from: real, to: real)
    requires RateOk(r) && from <= to
    ensures Accrued(r, from, to) >= 0.0
  {
    Product(to - from, r.perSecond);
  }

  lemma AccruedAdds(r: Rate, from: real, mid: real, to: real)
    ensures Accrued(r, from, to) == Accrued(r, from, mid) + Accrued(r, mid, to)
  {
    assert (to - from) * r.perSecond == (mid - from) * r.perSecond + (to - mid) * r.perSecond;
  }

  lemma AccruedNothing(r: Rate, at: real)
    ensures Accrued(r, at, at) == 0.0
  {
    assert at - at == 0.0;
  }

  lemma AccruedLater(r: Rate, from: real, early: real, late: real)
    requires RateOk(r) && early <= late
    ensures Accrued(r, from, early) <= Accrued(r, from, late)
  {
    AccruedAdds(r, from, early, late);
    AccruedNonNegative(r, early, late);
  }

  lemma DeficitMet(rate: real, deficit: real)
    requires rate > 0.0
    ensures deficit / rate * rate == deficit
  {
  }

  /** After `deficit / rate` seconds the deficit has accrued. */
  lemma AccruedDeficit(r: Rate, now: real, deficit: real)
    requires RateOk(r)
    ensures Accrued(r, now, now + deficit / r.perSecond) == deficit
  {
    var wait := deficit / r.perSecond;
    DeficitMet(r.perSecond, deficit);
    assert now + wait - now == wait;
  }

  /** A positive amount takes time to accrue. */
  lemma AccruedTakesTime(r: Rate, from: real, to: real)
    requires RateOk(r) && Accrued(r, from, to) > 0.0
    ensures from < to
  {
    if to <= from {
      AccruedNonNegative(r, to, from);
      AccruedAdds(r, from, to, from);
      AccruedNothing(r, from);
    }
  }

  /** `_refill` at time `now`. */
  function Refill(r: Rate, lv: Level, now: real): Level {
    if now > lv.last then Level(Min(r.burst, lv.tokens + Accrued(r, lv.last, now)), now) else lv
  }

  predicate Grants(r: Rate, lv: Level, now: real, count: real) {
    Refill(r, lv, now).tokens >= count
  }

  /** The body of the lock in `acquire`: one check at time `now`. */
  function Check(r: Rate, lv: Level, now: real, count: real): Level {
    var lv' := Refill(r, lv, now);
    if lv'.tokens >= count then lv'.(tokens := lv'.tokens - count) else lv'
  }

  /** How long a denied caller is told to sleep. */
  function Wait(r: Rate, lv: Level, now: real, count: real): real
    requires r.perSecond > 0.0
  {
    (count - Refill(r, lv, now).tokens) / r.perSecond
  }

  // ----- whole runs

  datatype Request = Request(time: real, count: real)

  datatype Grant = Grant(time: real, count: real)

  /** Tokens consumed at or after `from`. */
  function Consumed(grants: seq<Grant>, from: real): real {
    if grants == [] then 0.0
    else
      var last := grants[|grants| - 1];
      Consumed(grants[..|grants| - 1], from) + if last.time >= from then last.count else 0.0
  }

  /** The checks `reqs` on a bucket created at `t0`: its level and what it has granted. */
  function Levels(r: Rate, t0: real, reqs: seq<Request>): Level {
    if reqs == [] then Level(r.burst, t0)
    else
      var last := reqs[|reqs| - 1];
      Check(r, Levels(r, t0, reqs[..|reqs| - 1]), last.time, last.count)
  }

  function Granted(r: Rate, t0: real, reqs: seq<Request>): seq<Grant> {
    if reqs == [] then []
    else
      var n := |reqs| - 1;
      Granted(r, t0, reqs[..n]) +
      if Grants(r, Levels(r, t0, reqs[..n]), reqs[n].time, reqs[n].count)
      then [Grant(reqs[n].time, reqs[n].count)] else []
  }

  /** The clock is monotonic. */
  ghost predicate Timely(t0: real, reqs: seq<Request>) {
    && (forall i :: 0 <= i < |reqs| ==> t0 <= reqs[i].time)
    && (forall i, j :: 0 <= i < j < |reqs| ==> reqs[i].time <= reqs[j].time)
  }

  /** What may be consumed in [from, now] on top of what has been. */
  function Room(r: Rate, grants: seq<Grant>, from: real, now: real): real {
    r.burst + Accrued(r, from, now) - Consumed(grants, from)
  }

  /** `tokens` is the least room over all instants of the run: a lower bound that some instant attains. */
  ghost predicate Tight(r: Rate, t0: real, grants: seq<Grant>, lv: Level) {
    && t0 <= lv.last
    && (forall i :: 0 <= i < |grants| ==> grants[i].time <= lv.last)
    && (forall from :: t0 <= from <= lv.last ==> lv.tokens <= Room(r, grants, from, lv.last))
    && (exists from :: t0 <= from <= lv.last && lv.tokens == Room(r, grants, from, lv.last))
  }

  lemma {:induction false} NothingAfter(grants: seq<Grant>, from: real)
    requires forall i :: 0 <= i < |grants| ==> grants[i].time < from
    ensures Consumed(grants, from) == 0.0
  {
    if grants == [] {
    } else {
      NothingAfter(grants[..|grants| - 1], from);
    }
  }

  lemma OneMore(grants: seq<Grant>, g: Grant, from: real)
    ensures Consumed(grants + [g], from) == Consumed(grants, from) + if g.time >= from then g.count else 0.0
  {
    assert (grants + [g])[..|grants|] == grants;
  }

  lemma RoomGrows(r: Rate, grants: seq<Grant>, from: real, last: real, now: real)
    ensures Room(r, grants, from, now) == Room(r, grants, from, last) + Accrued(r, last, now)
  {
    AccruedAdds(r, from, last, now);
  }

  lemma RefillBelow(r: Rate, t0: real, grants: seq<Grant>, lv: Level, now: real, from: real)
    requires RateOk(r) && Tight(r, t0, grants, lv) && lv.last < now && t0 <= from <= now
    ensures Refill(r, lv, now).tokens <= Room(r, grants, from, now)
  {
    if from <= lv.last {
      RoomGrows(r, grants, from, lv.last, now);
    } else {
      NothingAfter(grants, from);
      AccruedNonNegative(r, from, now);
    }
  }

  lemma RefillAttained(r: Rate, t0: real, grants: seq<Grant>, lv: Level, now: real) returns (from: real)
    requires RateOk(r) && Tight(r, t0, grants, lv) && lv.last < now
    ensures t0 <= from <= now && Refill(r, lv, now).tokens == Room(r, grants, from, now)
  {
    var worst :| t0 <= worst <= lv.last && lv.tokens == Room(r, grants, worst, lv.last);
    RoomGrows(r, grants, worst, lv.last, now);
    if lv.tokens + Accrued(r, lv.last, now) <= r.burst {
      from := worst;
    } else {
      NothingAfter(grants, now);
      AccruedNothing(r, now);
      from := now;
    }
  }

  lemma RefillTight(r: Rate, t0: real, grants: seq<Grant>, lv: Level, now: real)
    requires RateOk(r) && Tight(r, t0, grants, lv) && lv.last <= now
    ensures Tight(r, t0, grants, Refill(r, lv, now)) && Refill(r, lv, now).last == now
  {
    if now > lv.last {
      forall from | t0 <= from <= now
        ensures Refill(r, lv, now).tokens <= Room(r, grants, from, now)
      {
        RefillBelow(r, t0, grants, lv, now, from);
      }
      var attained := RefillAttained(r, t0, grants, lv, now);
    }
  }

  lemma GrantTight(r: Rate, t0: real, grants: seq<Grant>, lv: Level, count: real)
    requires Tight(r, t0, grants, lv)
    ensures Tight(r, t0, grants + [Grant(lv.last, count)], lv.(tokens := lv.tokens - count))
  {
    var g := Grant(lv.last, count);
    forall from | t0 <= from <= lv.last
      ensures Room(r, grants + [g], from, lv.last) == Room(r, grants, from, lv.last) - count
    {
      OneMore(grants, g, from);
    }
    var worst :| t0 <= worst <= lv.last && lv.tokens == Room(r, grants, worst, lv.last);
    assert lv.tokens - count == Room(r, grants + [g], worst, lv.last);
  }

  /** One check, granted or denied, keeps the level tight. */
  lemma CheckTight(r: Rate, t0: real, grants: seq<Grant>, lv: Level, now: real, count: real)
    requires RateOk(r) && Tight(r, t0, grants, lv) && lv.last <= now
    ensures
      var grants' := if Grants(r, lv, now, count) then grants + [Grant(now, count)] else grants;
      Tight(r, t0, grants', Check(r, lv, now, count))
  {
    RefillTight(r, t0, grants, lv, now);
    GrantTight(r, t0, grants, Refill(r, lv, now), count);
  }

  lemma TimelyPrefix(t0: real, reqs: seq<Request>)
    requires Timely(t0, reqs) && reqs != []
    ensures Timely(t0, reqs[..|reqs| - 1])
  {
  }

  lemma LastBefore(r: Rate, t0: real, reqs: seq<Request>)
    requires Timely(t0, reqs)
    ensures t0 <= Levels(r, t0, reqs).last
    ensures Levels(r, t0, reqs).last <= if reqs == [] then t0 else reqs[|reqs| - 1].time
  {
    if reqs != [] {
      TimelyPrefix(t0, reqs);
      LastBefore(r, t0, reqs[..|reqs| - 1]);
    }
  }

  lemma StartTight(r: Rate, t0: real)
    ensures Tight(r, t0, [], Level(r.burst, t0))
  {
    AccruedNothing(r, t0);
    assert Room(r, [], t0, t0) == r.burst;
  }

  lemma LevelsStep(r: Rate, t0: real, reqs: seq<Request>)
    requires reqs != []
    ensures
      var n := |reqs| - 1;
      var lv, grants := Levels(r, t0, reqs[..n]), Granted(r, t0, reqs[..n]);
      && Levels(r, t0, reqs) == Check(r, lv, reqs[n].time, reqs[n].count)
      && Granted(r, t0, reqs) == if Grants(r, lv, reqs[n].time, reqs[n].count)
                                 then grants + [Grant(reqs[n].time, reqs[n].count)] else grants
  {
  }

  /** The lazily refilled level is exactly the least room of the history, whatever checks were denied. */
  lemma {:induction false} LevelTight(r: Rate, t0: real, reqs: seq<Request>)
    requires RateOk(r) && Timely(t0, reqs)
    ensures Tight(r, t0, Granted(r, t0, reqs), Levels(r, t0, reqs))
  {
    if reqs == [] {
      StartTight(r, t0);
    } else {
      var n := |reqs| - 1;
      TimelyPrefix(t0, reqs);
      LevelTight(r, t0, reqs[..n]);
      LastBefore(r, t0, reqs[..n]);
      assert n > 0 ==> reqs[n - 1].time <= reqs[n].time;
      CheckTight(r, t0, Granted(r, t0, reqs[..n]), Levels(r, t0, reqs[..n]), reqs[n].time, reqs[n].count);
      LevelsStep(r, t0, reqs);
    }
  }

  /**
    Granting `count` now keeps every window that ends now inside the envelope: for every instant
    `from` of the run, `count` plus the consumption since `from` is at most burst + rate * (now - from).
  */
  ghost predicate InEnvelope(r: Rate, t0: real, grants: seq<Grant>, now: real, count: real) {
    forall from :: t0 <= from <= now ==> count <= Room(r, grants, from, now)
  }

  lemma TightIsEnvelope(r: Rate, t0: real, grants: seq<Grant>, lv: Level, count: real)
    requires Tight(r, t0, grants, lv)
    ensures lv.tokens >= count <==> InEnvelope(r, t0, grants, lv.last, count)
  {
    if InEnvelope(r, t0, grants, lv.last, count) {
      var worst :| t0 <= worst <= lv.last && lv.tokens == Room(r, grants, worst, lv.last);
      assert count <= Room(r, grants, worst, lv.last);
    }
  }

  lemma NextTimely(r: Rate, t0: real, reqs: seq<Request>, now: real, count: real)
    requires Timely(t0, reqs + [Request(now, count)])
    ensures Timely(t0, reqs) && Levels(r, t0, reqs).last <= now
  {
    var all := reqs + [Request(now, count)];
    TimelyPrefix(t0, all);
    assert all[..|reqs|] == reqs;
    LastBefore(r, t0, reqs);
    assert t0 <= all[|reqs|].time;
    assert reqs != [] ==> all[|reqs| - 1].time <= all[|reqs|].time;
  }

  /**
    The bucket is its envelope: after any run of granted and denied checks, a request for `count`
    tokens is granted at `now` if and only if, for every instant of the run, what was consumed since
    that instant plus `count` is at most burst + rate * elapsed.
  */
  lemma BucketIsEnvelope(r: Rate, t0: real, reqs: seq<Request>, now: real, count: real)
    requires RateOk(r) && Timely(t0, reqs + [Request(now, count)])
    ensures Grants(r, Levels(r, t0, reqs), now, count) <==> InEnvelope(r, t0, Granted(r, t0, reqs), now, count)
  {
    NextTimely(r, t0, reqs, now, count);
    LevelTight(r, t0, reqs);
    RefillTight(r, t0, Granted(r, t0, reqs), Levels(r, t0, reqs), now);
    TightIsEnvelope(r, t0, Granted(r, t0, reqs), Refill(r, Levels(r, t0, reqs), now), count);
  }

  lemma {:induction false} NeverNegative(r: Rate, t0: real, reqs: seq<Request>)
    requires RateOk(r)
    ensures Levels(r, t0, reqs).tokens >= 0.0
  {
    if reqs == [] {
    } else {
      var n := |reqs| - 1;
      NeverNegative(r, t0, reqs[..n]);
      var lv := Levels(r, t0, reqs[..n]);
      if reqs[n].time > lv.last {
        AccruedNonNegative(r, lv.last, reqs[n].time);
      }
    }
  }

  /** Tokens consumed in the window [from, to]. */
  function ConsumedIn(grants: seq<Grant>, from: real, to: real): real {
    if grants == [] then 0.0
    else
      var last := grants[|grants| - 1];
      ConsumedIn(grants[..|grants| - 1], from, to) + if from <= last.time <= to then last.count else 0.0
  }

  lemma {:induction false} ConsumedUntil(grants: seq<Grant>, from: real, to: real)
    requires forall i :: 0 <= i < |grants| ==> grants[i].time <= to
    ensures ConsumedIn(grants, from, to) == Consumed(grants, from)
  {
    if grants == [] {
    } else {
      ConsumedUntil(grants[..|grants| - 1], from, to);
    }
  }

  lemma WindowDropsLater(grants: seq<Grant>, g: Grant, from: real, to: real)
    requires g.time > to
    ensures ConsumedIn(grants + [g], from, to) == ConsumedIn(grants, from, to)
  {
    assert (grants + [g])[..|grants|] == grants;
  }

  /** A window that ends at or after the last check. */
  lemma LastWindowBounded(r: Rate, t0: real, reqs: seq<Request>, from: real, to: real)
    requires RateOk(r) && Timely(t0, reqs) && t0 <= from <= to && Levels(r, t0, reqs).last <= to
    ensures ConsumedIn(Granted(r, t0, reqs), from, to) <= r.burst + Accrued(r, from, to)
  {
    var lv, grants := Levels(r, t0, reqs), Granted(r, t0, reqs);
    LevelTight(r, t0, reqs);
    ConsumedUntil(grants, from, to);
    AccruedNonNegative(r, from, to);
    if from <= lv.last {
      NeverNegative(r, t0, reqs);
      assert 0.0 <= Room(r, grants, from, lv.last);
      AccruedLater(r, from, lv.last, to);
    } else {
      NothingAfter(grants, from);
    }
  }

  /** So in no window of a run more than burst + rate * length is consumed. */
  lemma {:induction false} ConsumptionBounded(r: Rate, t0: real, reqs: seq<Request>, from: real, to: real)
    requires RateOk(r) && Timely(t0, reqs) && t0 <= from <= to
    ensures ConsumedIn(Granted(r, t0, reqs), from, to) <= r.burst + Accrued(r, from, to)
  {
    LastBefore(r, t0, reqs);
    if reqs == [] || reqs[|reqs| - 1].time <= to {
      LastWindowBounded(r, t0, reqs, from, to);
    } else {
      var n := |reqs| - 1;
      TimelyPrefix(t0, reqs);
      ConsumptionBounded(r, t0, reqs[..n], from, to);
      LevelsStep(r, t0, reqs);
      WindowDropsLater(Granted(r, t0, reqs[..n]), Grant(reqs[n].time, reqs[n].count), from, to);
    }
  }

  // ----- contention

  /** A caller inside the loop of `acquire`: its denied checks, the grants it has seen, its wake-up time. */
  datatype Waiter = Waiter(count: real, denials: nat, seen: nat, wake: real)

  datatype Arena = Arena(lv: Level, waiters: map<nat, Waiter>, grants: nat)

  /** Waiter `w` takes the lock at time `now`. */
  datatype Poll = Poll(w: nat, now: real)

  /** The clock is monotonic and no sleep ends early. */
  predicate MayPoll(a: Arena, p: Poll) {
    p.w in a.waiters && a.lv.last <= p.now && (a.waiters[p.w].denials > 0 ==> a.waiters[p.w].wake <= p.now)
  }

  function Polled(r: Rate, a: Arena, p: Poll): Arena
    requires RateOk(r) && p.w in a.waiters
  {
    var x := a.waiters[p.w];
    var lv := Check(r, a.lv, p.now, x.count);
    if Grants(r, a.lv, p.now, x.count) then Arena(lv, a.waiters - {p.w}, a.grants + 1)
    else
      var x' := Waiter(x.count, x.denials + 1, a.grants, p.now + Wait(r, a.lv, p.now, x.count));
      Arena(lv, a.waiters[p.w := x'], a.grants)
  }

  /** Enough tokens are there, or will have accrued by `wake`. */
  predicate Promised(r: Rate, lv: Level, count: real, wake: real) {
    lv.tokens >= count || lv.tokens + Accrued(r, lv.last, wake) >= count
  }

  lemma PromiseMade(r: Rate, lv: Level, now: real, count: real)
    requires RateOk(r) && lv.last <= now && !Grants(r, lv, now, count)
    ensures Promised(r, Refill(r, lv, now), count, now + Wait(r, lv, now, count))
  {
    AccruedDeficit(r, now, count - Refill(r, lv, now).tokens);
  }

  lemma PromiseKept(r: Rate, lv: Level, now: real, count: real, wake: real)
    requires RateOk(r) && Promised(r, lv, count, wake) && lv.last <= now && count <= r.burst
    ensures Promised(r, Refill(r, lv, now), count, wake)
  {
    AccruedNonNegative(r, lv.last, now);
    AccruedAdds(r, lv.last, now, wake);
  }

  lemma PromiseMet(r: Rate, lv: Level, now: real, count: real, wake: real)
    requires RateOk(r) && Promised(r, lv, count, wake) && lv.last <= now && wake <= now && count <= r.burst
    ensures Grants(r, lv, now, count)
  {
    AccruedNonNegative(r, lv.last, now);
    AccruedLater(r, lv.last, wake, now);
    AccruedNothing(r, lv.last);
  }

  /** One waiter: every denial but the first saw a new grant, and no grant since then means a promise. */
  predicate WaiterGood(r: Rate, a: Arena, x: Waiter) {
    && x.count <= r.burst
    && (x.denials > 0 ==>
          && x.denials <= x.seen + 1 && x.seen <= a.grants
          && (x.seen == a.grants ==> Promised(r, a.lv, x.count, x.wake)))
  }

  ghost predicate ArenaGood(r: Rate, a: Arena, n: nat) {
    && |a.waiters| + a.grants == n
    && forall w :: w in a.waiters ==> WaiterGood(r, a, a.waiters[w])
  }

  /** A waiter denied after its sleep: somebody else was granted since its last check. */
  lemma DenialMeansGrant(r: Rate, a: Arena, n: nat, p: Poll)
    requires RateOk(r) && ArenaGood(r, a, n) && MayPoll(a, p)
    requires a.waiters[p.w].denials > 0 && !Grants(r, a.lv, p.now, a.waiters[p.w].count)
    ensures a.waiters[p.w].seen < a.grants
  {
    var x := a.waiters[p.w];
    assert WaiterGood(r, a, x);
    if x.seen == a.grants {
      PromiseMet(r, a.lv, p.now, x.count, x.wake);
    }
  }

  lemma OthersGood(r: Rate, a: Arena, n: nat, p: Poll, w: nat)
    requires RateOk(r) && ArenaGood(r, a, n) && MayPoll(a, p) && w in a.waiters && w != p.w
    ensures w in Polled(r, a, p).waiters && WaiterGood(r, Polled(r, a, p), Polled(r, a, p).waiters[w])
  {
    var x := a.waiters[w];
    assert WaiterGood(r, a, x);
    if x.denials > 0 && x.seen == a.grants {
      PromiseKept(r, a.lv, p.now, x.count, x.wake);
    }
  }

  lemma DeniedGood(r: Rate, a: Arena, n: nat, p: Poll)
    requires RateOk(r) && ArenaGood(r, a, n) && MayPoll(a, p) && !Grants(r, a.lv, p.now, a.waiters[p.w].count)
    ensures WaiterGood(r, Polled(r, a, p), Polled(r, a, p).waiters[p.w])
  {
    var x := a.waiters[p.w];
    assert WaiterGood(r, a, x);
    PromiseMade(r, a.lv, p.now, x.count);
    if x.denials > 0 {
      DenialMeansGrant(r, a, n, p);
    }
  }

  lemma PollKeeps(r: Rate, a: Arena, n: nat, p: Poll)
    requires RateOk(r) && ArenaGood(r, a, n) && MayPoll(a, p)
    ensures ArenaGood(r, Polled(r, a, p), n)
  {
    var a' := Polled(r, a, p);
    if Grants(r, a.lv, p.now, a.waiters[p.w].count) {
      assert a'.waiters.Keys == a.waiters.Keys - {p.w};
    } else {
      DeniedGood(r, a, n, p);
      assert a'.waiters.Keys == a.waiters.Keys;
    }
    forall w | w in a'.waiters
      ensures WaiterGood(r, a', a'.waiters[w])
    {
      if w != p.w {
        OthersGood(r, a, n, p, w);
      }
    }
  }

  /** The arena after a sequence of polls, each of which may happen when it does. */
  ghost predicate Polls(r: Rate, a: Arena, ps: seq<Poll>, a': Arena)
    requires RateOk(r)
    decreases |ps|
  {
    if ps == [] then a' == a
    else MayPoll(a, ps[0]) && Polls(r, Polled(r, a, ps[0]), ps[1..], a')
  }

  lemma {:induction false} PollsKeep(r: Rate, a: Arena, n: nat, ps: seq<Poll>, a': Arena)
    requires RateOk(r) && ArenaGood(r, a, n) && Polls(r, a, ps, a')
    ensures ArenaGood(r, a', n)
    decreases |ps|
  {
    if ps == [] {
    } else {
      PollKeeps(r, a, n, ps[0]);
      PollsKeep(r, Polled(r, a, ps[0]), n, ps[1..], a');
    }
  }

  /** `n` callers, none of which has checked yet, each asking for no more than the capacity. */
  ghost predicate FreshArena(r: Rate, a: Arena, n: nat) {
    && |a.waiters| == n && a.grants == 0
    && forall w :: w in a.waiters ==> a.waiters[w].denials == 0 && a.waiters[w].count <= r.burst
  }

  /**
    Contended acquire terminates: of `n` callers on one bucket, whatever the order in which they wake
    up, none is ever denied more than `n` times, so each is served on its pass `n` + 1 at the latest.
  */
  lemma AcquireTerminates(r: Rate, a: Arena, n: nat, ps: seq<Poll>, a': Arena, w: nat)
    requires RateOk(r) && FreshArena(r, a, n) && Polls(r, a, ps, a') && w in a'.waiters
    ensures a'.waiters[w].denials <= n
    ensures a'.waiters[w].denials == n ==>
      forall now :: MayPoll(a', Poll(w, now)) ==> Grants(r, a'.lv, now, a'.waiters[w].count)
  {
    PollsKeep(r, a, n, ps, a');
    var x := a'.waiters[w];
    assert WaiterGood(r, a', x);
    assert |a'.waiters| >= 1 by {
      assert w in a'.waiters.Keys;
    }
    forall now | x.denials == n && MayPoll(a', Poll(w, now))
      ensures Grants(r, a'.lv, now, x.count)
    {
      if !Grants(r, a'.lv, now, x.count) {
        PollKeeps(r, a', n, Poll(w, now));
        DeniedGood(r, a', n, Poll(w, now));
        assert false;
      }
    }
  }

  // ----- the order of service

  /** `count` tokens are missing now and will be complete exactly at `wake`, if nobody takes any. */
  predicate Due(r: Rate, lv: Level, count: real, wake: real) {
    lv.tokens < count && lv.tokens + Accrued(r, lv.last, wake) == count
  }

  lemma DueMade(r: Rate, lv: Level, now: real, count: real)
    requires RateOk(r) && lv.last <= now && !Grants(r, lv, now, count)
    ensures Check(r, lv, now, count).last == now
    ensures Due(r, Check(r, lv, now, count), count, now + Wait(r, lv, now, count))
  {
    AccruedDeficit(r, now, count - Refill(r, lv, now).tokens);
  }

  /**
    After a denial, another caller for as many tokens is granted first if and only if it checks at or
    after the wake-up time of the one denied.
  */
  lemma OvertakesIff(r: Rate, lv: Level, count: real, wake: real, now: real)
    requires RateOk(r) && Due(r, lv, count, wake) && lv.last <= now && count <= r.burst
    ensures Grants(r, lv, now, count) <==> wake <= now
  {
    AccruedAdds(r, lv.last, now, wake);
    if wake <= now {
      PromiseMet(r, lv, now, count, wake);
    } else if now > lv.last && Grants(r, lv, now, count) {
      AccruedNonNegative(r, now, wake);
      StrictlyLater(r, now, wake);
      assert false;
    }
  }

  lemma StrictlyLater(r: Rate, from: real, to: real)
    requires RateOk(r) && from < to
    ensures Accrued(r, from, to) > 0.0
  {
    PositiveProduct(to - from, r.perSecond);
  }

  lemma PositiveProduct(x: real, y: real)
    requires x > 0.0 && y > 0.0
    ensures x * y > 0.0
  {
  }

  lemma DueKept(r: Rate, lv: Level, count: real, wake: real, now: real)
    requires RateOk(r) && Due(r, lv, count, wake) && lv.last <= now < wake && count <= r.burst
    ensures Due(r, Check(r, lv, now, count), count, wake) && Check(r, lv, now, count).last == now
  {
    OvertakesIff(r, lv, count, wake, now);
    AccruedAdds(r, lv.last, now, wake);
    StrictlyLater(r, now, wake);
  }

  /** Everybody asks for `count` tokens, and `w`, denied before, wakes up when they are complete. */
  ghost predicate NextInLine(r: Rate, a: Arena, count: real, w: nat) {
    && count <= r.burst && w in a.waiters && a.waiters[w].denials > 0 && Due(r, a.lv, count, a.waiters[w].wake)
    && forall v :: v in a.waiters ==> a.waiters[v].count == count
  }

  /**
    Service is in the order of checks as long as the one denied first checks again before anybody else
    does at or after its wake-up time: until then nobody is granted, and then it is.
  */
  lemma {:induction false} ServedInOrder(r: Rate, a: Arena, count: real, w: nat, ps: seq<Poll>, a': Arena, now: real)
    requires RateOk(r) && NextInLine(r, a, count, w) && Polls(r, a, ps, a')
    requires forall i :: 0 <= i < |ps| ==> ps[i].now < a.waiters[w].wake
    requires a.waiters[w].wake <= now
    ensures NextInLine(r, a', count, w) && a'.grants == a.grants && a'.waiters[w] == a.waiters[w]
    ensures MayPoll(a', Poll(w, now)) && Grants(r, a'.lv, now, count)
    decreases |ps|
  {
    if ps == [] {
      AccruedTakesTime(r, a.lv.last, a.waiters[w].wake);
      OvertakesIff(r, a.lv, count, a.waiters[w].wake, now);
    } else {
      var p := ps[0];
      OvertakesIff(r, a.lv, count, a.waiters[w].wake, p.now);
      DueKept(r, a.lv, count, a.waiters[w].wake, p.now);
      ServedInOrder(r, Polled(r, a, p), count, w, ps[1..], a', now);
    }
  }

  /** Nothing else keeps the order: whenever `w` is denied, `v` can come later and be served before it. */
  lemma LaterServedFirst(r: Rate, a: Arena, w: nat, v: nat, now: real) returns (ps: seq<Poll>, a': Arena)
    requires RateOk(r) && w in a.waiters && v in a.waiters && w != v && MayPoll(a, Poll(w, now))
    requires a.waiters[v].denials == 0 && a.waiters[v].count == a.waiters[w].count <= r.burst
    requires !Grants(r, a.lv, now, a.waiters[w].count)
    ensures |ps| == 2 && ps[0] == Poll(w, now) && ps[1].w == v && Polls(r, a, ps, a')
    ensures w in a'.waiters && v !in a'.waiters
  {
    var count := a.waiters[w].count;
    DueMade(r, a.lv, now, count);
    var a1 := Polled(r, a, Poll(w, now));
    var wake := a1.waiters[w].wake;
    AccruedTakesTime(r, now, wake);
    OvertakesIff(r, a1.lv, count, wake, wake);
    ps, a' := [Poll(w, now), Poll(v, wake)], Polled(r, a1, Poll(v, wake));
    assert ps[1..] == [Poll(v, wake)] && ps[1..][1..] == [];
  }

  // ----- the object

  datatype Acquired = Acquired(delay: real) | TooMany

  class TokenBucket {
    const rate: Rate
    var tokens: real
    var last: real

    function View(): Level
      reads this
    {
      Level(tokens, last)
    }

    constructor (perSecond: real, burst: real, now: real)
      requires perSecond > 0.0 && burst > 0.0
      ensures RateOk(rate) && rate == Rate(perSecond, burst) && View() == Level(burst, now)
    {
      rate := Rate(perSecond, burst);
      tokens := burst;
      last := now;
    }

    /** `TokenBucket(rate, burst)`, where `None` stands for the ValueError on one that is not positive. */
    static method Create(perSecond: real, burst: real, now: real) returns (r: Models.Option<TokenBucket>)
      ensures r.Some? <==> perSecond > 0.0 && burst > 0.0
      ensures r.Some? ==>
        fresh(r.value) && r.value.rate == Rate(perSecond, burst) && r.value.View() == Level(burst, now)
    {
      if perSecond <= 0.0 || burst <= 0.0 {
        return Models.None;
      }
      var bucket := new TokenBucket(perSecond, burst, now);
      return Models.Some(bucket);
    }

    /** The `tokens` property: what a refill at `now` would leave, without refilling. */
    function Tokens(now: real): (r: real)
      reads this
      ensures last < now || (last == now && tokens <= rate.burst) ==> r == Refill(rate, View(), now).tokens
    {
      AccruedNothing(rate, last);
      Min(rate.burst, tokens + Accrued(rate, last, now))
    }

    method DoRefill(now: real)
      modifies this
      ensures View() == Refill(rate, old(View()), now)
    {
      var elapsed := now - last;
      if elapsed > 0.0 {
        tokens := Min(rate.burst, tokens + Accrued(rate, last, now));
        last := now;
      }
    }

    /**
      `acquire` by a caller that has the bucket to itself; its sleeps overrun by `lag`.  It is served at
      once or after one sleep of exactly the time the missing tokens take to accrue.
    */
    method Acquire(count: real, now: real, lag: real) returns (r: Acquired)
      requires RateOk(rate) && last <= now && lag >= 0.0
      modifies this
      ensures count > rate.burst <==> r == TooMany
      ensures r == TooMany ==> View() == old(View())
      ensures r != TooMany && Grants(rate, old(View()), now, count) ==>
        r.delay == 0.0 && View() == Check(rate, old(View()), now, count)
      ensures r != TooMany && !Grants(rate, old(View()), now, count) ==>
        && r.delay == Wait(rate, old(View()), now, count)
        && View() == Check(rate, Check(rate, old(View()), now, count), now + r.delay + lag, count)
        && Grants(rate, Check(rate, old(View()), now, count), now + r.delay + lag, count)
    {
      if count > rate.burst {
        return TooMany;
      }
      var delayTotal, time, passes := 0.0, now, 0;
      ghost var start := View();
      while true
        invariant 0 <= passes <= 1
        invariant passes == 0 ==> View() == start && delayTotal == 0.0 && time == now
        invariant passes == 1 ==>
          && !Grants(rate, start, now, count) && View() == Check(rate, start, now, count)
          && delayTotal == Wait(rate, start, now, count) && time == now + delayTotal + lag
          && Grants(rate, View(), time, count)
        decreases 1 - passes
      {
        DoRefill(time);
        if tokens >= count {
          tokens := tokens - count;
          return Acquired(delayTotal);
        }
        ghost var denied := View();
        var wait := (count - tokens) / rate.perSecond;
        delayTotal := delayTotal + wait;
        time := time + wait + lag;
        passes := passes + 1;
        PromiseMade(rate, start, now, count);
        AccruedDeficit(rate, denied.last, count - denied.tokens);
        AccruedTakesTime(rate, denied.last, denied.last + wait);
        PromiseMet(rate, denied, time, count, now + wait);
      }
    }
  }
}
