/**
 The process-local token bucket limiter (internal/access/rate_limit.go), over the reals: times and
 durations are seconds.
 */
module TokenBucket {
  import opened Wrappers

  datatype ClientKey = ClientKey(tenant: string, subject: string, action: string)
  datatype Bucket = Bucket(tokens: real, last: real)
  type Buckets = map<ClientKey, Bucket>

  datatype Config = Config(rate: real, burst: nat, pruneAfter: real, maxBuckets: nat)
  {
    predicate Valid() { rate > 0.0 && burst >= 1 && pruneAfter > 0.0 && maxBuckets >= 1 }
  }

  function Min(a: real, b: real): real { if a <= b then a else b }

  function Ceil(x: real): int {
    if x.Floor as real == x then x.Floor else x.Floor + 1
  }

  /** The configuration of a limiter, or none: a nil limiter that admits everything. */
  function NewConfig(perMinute: int, burst: int): Option<Config> {
    if perMinute <= 0 then None
    else
      var b := if burst > 0 then burst else if perMinute > 60 then 60 else perMinute;
      Some(Config(perMinute as real / 60.0, b, 3600.0, 100000))
  }

  /** The tokens that flow in over a duration. */
  function Gain(c: Config, duration: real): real {
    duration * c.rate
  }

  /** The bucket of a key at a time, refilled; a new key starts full. */
  function Ready(c: Config, m: Buckets, k: ClientKey, now: real): Bucket {
    if k !in m then Bucket(c.burst as real, now)
    else if now > m[k].last then
      Bucket(Min(c.burst as real, m[k].tokens + Gain(c, now - m[k].last)), now)
    else m[k]
  }

  function Prune(c: Config, m: Buckets, now: real): Buckets {
    map k | k in m && !(m[k].last < now - c.pruneAfter) :: m[k]
  }

  datatype Verdict = Verdict(retry: int, ok: bool)

  function RetryAfter(c: Config, tokens: real): int
    requires c.rate > 0.0
  {
    var wait := Ceil((1.0 - tokens) / c.rate);
    if wait < 1 then 1 else wait
  }

  function Allow(c: Config, m: Buckets, k: ClientKey, now: real): (Buckets, Verdict)
    requires c.Valid()
  {
    var state := Ready(c, m, k, now);
    if state.tokens >= 1.0 then
      var charged := m[k := state.(tokens := state.tokens - 1.0)];
      (if |charged| > c.maxBuckets then Prune(c, charged, now) else charged, Verdict(0, true))
    else
      (m[k := state], Verdict(RetryAfter(c, state.tokens), false))
  }

  class TokenBucketLimiter {
    const config: Config
    var buckets: Buckets

    constructor (config: Config)
      ensures this.config == config && buckets == map[]
    {
      this.config := config;
      buckets := map[];
    }

    method PruneBuckets(now: real)
      modifies this
      ensures buckets == Prune(config, old(buckets), now)
    {
      var cutoff := now - config.pruneAfter;
      var rest := buckets.Keys;
      while rest != {}
        invariant rest <= buckets.Keys <= old(buckets).Keys
        invariant forall k :: k in buckets ==>
                    buckets[k] == old(buckets)[k] && (k in rest || !(buckets[k].last < cutoff))
        invariant forall k :: k in old(buckets) && k !in buckets ==> old(buckets)[k].last < cutoff
        decreases rest
      {
        var k :| k in rest;
        rest := rest - {k};
        if buckets[k].last < cutoff {
          buckets := buckets - {k};
        }
      }
    }

    method AllowRequest(k: ClientKey, now: real) returns (v: Verdict)
      requires config.Valid()
      modifies this
      ensures (buckets, v) == Allow(config, old(buckets), k, now)
    {
      var state := Bucket(config.burst as real, now);
      if k in buckets {
        state := buckets[k];
      }
      var elapsed := now - state.last;
      if elapsed > 0.0 {
        state := Bucket(Min(config.burst as real, state.tokens + Gain(config, elapsed)), now);
      }
      if state.tokens >= 1.0 {
        state := state.(tokens := state.tokens - 1.0);
        buckets := buckets[k := state];
        if |buckets| > config.maxBuckets {
          PruneBuckets(now);
        }
        return Verdict(0, true);
      }
      buckets := buckets[k := state];
      var retry := Ceil((1.0 - state.tokens) / config.rate);
      if retry < 1 {
        retry := 1;
      }
      return Verdict(retry, false);
    }
  }

  // Runs

  datatype Request = Request(key: ClientKey, now: real)

  /** The buckets after the first n requests. */
  function After(c: Config, m: Buckets, reqs: seq<Request>, n: nat): Buckets
    requires c.Valid() && n <= |reqs|
  {
    if n == 0 then m else Allow(c, After(c, m, reqs, n - 1), reqs[n - 1].key, reqs[n - 1].now).0
  }

  function VerdictAt(c: Config, m: Buckets, reqs: seq<Request>, i: nat): Verdict
    requires c.Valid() && i < |reqs|
  {
    Allow(c, After(c, m, reqs, i), reqs[i].key, reqs[i].now).1
  }

  /** 1 for an admitted request of the key, 0 for any other. */
  function Admit(c: Config, m: Buckets, reqs: seq<Request>, k: ClientKey, n: nat): real
    requires c.Valid() && n < |reqs|
  {
    if reqs[n].key == k && VerdictAt(c, m, reqs, n).ok then 1.0 else 0.0
  }

  /** How many of the requests lo..hi for the key are admitted, as a real number. */
  function Admitted(c: Config, m: Buckets, reqs: seq<Request>, k: ClientKey, lo: nat, hi: nat): real
    requires c.Valid() && lo <= hi <= |reqs|
    decreases hi
  {
    if lo == hi then 0.0 else Admitted(c, m, reqs, k, lo, hi - 1) + Admit(c, m, reqs, k, hi - 1)
  }

  ghost predicate Ordered(reqs: seq<Request>, start: real) {
    (forall i :: 0 <= i < |reqs| ==> reqs[i].now >= start) &&
    (forall i, j :: 0 <= i < j < |reqs| ==> reqs[i].now <= reqs[j].now)
  }

  /** Every bucket holds between 0 and burst tokens and was last touched no later than now. */
  ghost predicate Sane(c: Config, m: Buckets, now: real) {
    forall k :: k in m ==> 0.0 <= m[k].tokens <= c.burst as real && m[k].last <= now
  }

  function At(reqs: seq<Request>, n: nat, start: real): real
    requires n <= |reqs|
  {
    if n == 0 then start else reqs[n - 1].now
  }

  lemma GainMonotone(c: Config, a: real, b: real)
    requires c.Valid() && a <= b
    ensures Gain(c, a) <= Gain(c, b)
    ensures a < b ==> Gain(c, a) < Gain(c, b)
  {
    if a < b { assert (b - a) * c.rate > 0.0; }
  }

  lemma GainAdds(c: Config, a: real, b: real)
    ensures Gain(c, a + b) == Gain(c, a) + Gain(c, b)
  {
  }

  lemma GainZero(c: Config)
    ensures Gain(c, 0.0) == 0.0
  {
  }

  /** On sane buckets the refill is one formula, even when no time has passed. */
  lemma ReadyTokens(c: Config, m: Buckets, k: ClientKey, now: real)
    requires c.Valid() && Sane(c, m, now)
    ensures Ready(c, m, k, now).last == now
    ensures k in m ==> Ready(c, m, k, now).tokens == Min(c.burst as real, m[k].tokens + Gain(c, now - m[k].last))
    ensures k in m ==> Gain(c, now - m[k].last) >= 0.0
    ensures 0.0 <= Ready(c, m, k, now).tokens <= c.burst as real
  {
    if k in m {
      GainZero(c);
      GainMonotone(c, 0.0, now - m[k].last);
    }
  }

  function Charged(c: Config, m: Buckets, k: ClientKey, now: real): Buckets {
    var state := Ready(c, m, k, now);
    m[k := if state.tokens >= 1.0 then state.(tokens := state.tokens - 1.0) else state]
  }

  /** A call charges one bucket, and may prune afterwards. */
  lemma AllowCharges(c: Config, m: Buckets, k: ClientKey, now: real)
    requires c.Valid()
    ensures var next := Allow(c, m, k, now).0;
            next == Charged(c, m, k, now) || next == Prune(c, Charged(c, m, k, now), now)
    ensures Allow(c, m, k, now).1.ok <==> Ready(c, m, k, now).tokens >= 1.0
  {
  }

  lemma ChargedSane(c: Config, m: Buckets, k: ClientKey, now: real)
    requires c.Valid() && Sane(c, m, now)
    ensures Sane(c, Charged(c, m, k, now), now)
  {
    ReadyTokens(c, m, k, now);
  }

  lemma AllowKeepsSane(c: Config, m: Buckets, k: ClientKey, now: real)
    requires c.Valid() && Sane(c, m, now)
    ensures Sane(c, Allow(c, m, k, now).0, now)
  {
    ChargedSane(c, m, k, now);
    AllowCharges(c, m, k, now);
  }

  lemma {:induction false} SaneAfter(c: Config, m: Buckets, reqs: seq<Request>, n: nat, start: real)
    requires c.Valid() && Sane(c, m, start) && Ordered(reqs, start) && n <= |reqs|
    ensures Sane(c, After(c, m, reqs, n), At(reqs, n, start))
  {
    if n > 0 {
      SaneAfter(c, m, reqs, n - 1, start);
      AllowKeepsSane(c, After(c, m, reqs, n - 1), reqs[n - 1].key, reqs[n - 1].now);
    }
  }

  /** Between two times a key gains at most rate times the wait, and loses nothing. */
  lemma Flow(c: Config, m: Buckets, k: ClientKey, t0: real, t1: real)
    requires c.Valid() && Sane(c, m, t0) && t0 <= t1
    ensures Ready(c, m, k, t0).tokens <= Ready(c, m, k, t1).tokens <= Ready(c, m, k, t0).tokens + Gain(c, t1 - t0)
    ensures 0.0 <= Ready(c, m, k, t1).tokens <= c.burst as real
  {
    ReadyTokens(c, m, k, t0);
    assert Sane(c, m, t1);
    ReadyTokens(c, m, k, t1);
    GainZero(c);
    GainMonotone(c, 0.0, t1 - t0);
    if k in m {
      GainAdds(c, t0 - m[k].last, t1 - t0);
      assert t0 - m[k].last + (t1 - t0) == t1 - m[k].last;
    }
  }

  /** A bucket old enough to be pruned is full again, if burst is at most rate * pruneAfter. */
  lemma PrunedWasFull(c: Config, m: Buckets, k: ClientKey, now: real, t: real)
    requires c.Valid() && Sane(c, m, now) && now <= t && c.burst as real <= Gain(c, c.pruneAfter)
    ensures Ready(c, Prune(c, m, now), k, t).tokens == Ready(c, m, k, t).tokens
  {
    if k in m && m[k].last < now - c.pruneAfter {
      assert Sane(c, m, t);
      ReadyTokens(c, m, k, t);
      GainMonotone(c, c.pruneAfter, t - m[k].last);
    }
  }

  /** Charging one bucket moves each key's tokens only by its own admission. */
  lemma ChargeFlow(c: Config, m: Buckets, k: ClientKey, r: Request, t: real)
    requires c.Valid() && Sane(c, m, r.now) && r.now <= t
    ensures Ready(c, Charged(c, m, r.key, r.now), k, t).tokens
            + (if r.key == k && Ready(c, m, k, r.now).tokens >= 1.0 then 1.0 else 0.0)
            <= Ready(c, m, k, r.now).tokens + Gain(c, t - r.now)
  {
    var charged := Charged(c, m, r.key, r.now);
    ChargedSane(c, m, r.key, r.now);
    Flow(c, charged, k, r.now, t);
    ReadyTokens(c, m, k, r.now);
    ReadyTokens(c, charged, k, r.now);
    GainZero(c);
  }

  lemma RequestFlow(c: Config, m: Buckets, k: ClientKey, r: Request, t: real)
    requires c.Valid() && Sane(c, m, r.now) && r.now <= t && c.burst as real <= Gain(c, c.pruneAfter)
    ensures Ready(c, Allow(c, m, r.key, r.now).0, k, t).tokens
            + (if r.key == k && Allow(c, m, r.key, r.now).1.ok then 1.0 else 0.0)
            <= Ready(c, m, k, r.now).tokens + Gain(c, t - r.now)
  {
    AllowCharges(c, m, r.key, r.now);
    ChargedSane(c, m, r.key, r.now);
    ChargeFlow(c, m, k, r, t);
    PrunedWasFull(c, Charged(c, m, r.key, r.now), k, r.now, t);
  }

  /** One request of a run, seen from the state its predecessors left. */
  lemma RequestFlowAt(c: Config, m: Buckets, reqs: seq<Request>, k: ClientKey, n: nat, start: real, t: real)
    requires c.Valid() && Sane(c, m, start) && Ordered(reqs, start) && c.burst as real <= Gain(c, c.pruneAfter)
    requires n < |reqs| && t >= reqs[n].now
    ensures Ready(c, After(c, m, reqs, n + 1), k, t).tokens
            + Admit(c, m, reqs, k, n)
            <= Ready(c, After(c, m, reqs, n), k, reqs[n].now).tokens + Gain(c, t - reqs[n].now)
  {
    SaneAfter(c, m, reqs, n, start);
    RequestFlow(c, After(c, m, reqs, n), k, reqs[n], t);
  }

  /** The tokens of a key at a time, after the first n requests. */
  function LevelAt(c: Config, reqs: seq<Request>, k: ClientKey, n: nat, t: real): real
    requires c.Valid() && n <= |reqs|
  {
    Ready(c, After(c, map[], reqs, n), k, t).tokens
  }

  lemma LevelBounds(c: Config, reqs: seq<Request>, k: ClientKey, n: nat, start: real, t: real)
    requires c.Valid() && n <= |reqs| && Ordered(reqs, start) && t >= At(reqs, n, start)
    ensures 0.0 <= LevelAt(c, reqs, k, n, t) <= c.burst as real
  {
    SaneAfter(c, map[], reqs, n, start);
    assert Sane(c, After(c, map[], reqs, n), t);
    ReadyTokens(c, After(c, map[], reqs, n), k, t);
  }

  /** Tokens spent along a run are paid by the first level and the flow since. */
  lemma {:induction false} SpendingIsPaid(c: Config, reqs: seq<Request>, k: ClientKey, i: nat, j: nat, start: real,
                                          t: real)
    requires c.Valid() && c.burst as real <= Gain(c, c.pruneAfter)
    requires i <= j <= |reqs| && i < |reqs| && Ordered(reqs, start)
    requires t >= reqs[i].now && t >= At(reqs, j, start)
    ensures Admitted(c, map[], reqs, k, i, j) + LevelAt(c, reqs, k, j, t)
            <= LevelAt(c, reqs, k, i, reqs[i].now) + Gain(c, t - reqs[i].now)
    decreases j
  {
    if i == j {
      SaneAfter(c, map[], reqs, i, start);
      assert Sane(c, After(c, map[], reqs, i), reqs[i].now);
      Flow(c, After(c, map[], reqs, i), k, reqs[i].now, t);
    } else {
      var n := j - 1;
      var s := reqs[n].now;
      SpendingIsPaid(c, reqs, k, i, n, start, s);
      RequestFlowAt(c, map[], reqs, k, n, start, t);
      GainAdds(c, s - reqs[i].now, t - s);
      assert s - reqs[i].now + (t - s) == t - reqs[i].now;
    }
  }

  /**
   Window bound: however requests arrive and whenever buckets are pruned, the requests admitted for
   one key within any window number at most burst + rate * (length of the window).
   */
  lemma WindowBound(c: Config, reqs: seq<Request>, k: ClientKey, i: nat, j: nat)
    requires c.Valid() && c.burst as real <= Gain(c, c.pruneAfter)
    requires i < j <= |reqs| && Ordered(reqs, reqs[0].now)
    ensures Admitted(c, map[], reqs, k, i, j) <= c.burst as real + Gain(c, reqs[j - 1].now - reqs[i].now)
  {
    var start := reqs[0].now;
    SpendingIsPaid(c, reqs, k, i, j, start, reqs[j - 1].now);
    LevelBounds(c, reqs, k, i, start, reqs[i].now);
    LevelBounds(c, reqs, k, j, start, reqs[j - 1].now);
  }

  // Pruning

  /** The same tokens for every key from now on. */
  ghost predicate SameView(c: Config, m: Buckets, n: Buckets, now: real) {
    forall k, t :: t >= now ==> Ready(c, m, k, t).tokens == Ready(c, n, k, t).tokens
  }

  lemma PruneKeepsView(c: Config, m: Buckets, now: real)
    requires c.Valid() && Sane(c, m, now) && c.burst as real <= Gain(c, c.pruneAfter)
    ensures SameView(c, Prune(c, m, now), m, now)
  {
    forall k, t | t >= now ensures Ready(c, Prune(c, m, now), k, t).tokens == Ready(c, m, k, t).tokens {
      PrunedWasFull(c, m, k, now, t);
    }
  }

  lemma AllowMatchesCharge(c: Config, m: Buckets, k: ClientKey, now: real)
    requires c.Valid() && Sane(c, m, now) && c.burst as real <= Gain(c, c.pruneAfter)
    ensures SameView(c, Allow(c, m, k, now).0, Charged(c, m, k, now), now)
  {
    AllowCharges(c, m, k, now);
    ChargedSane(c, m, k, now);
    PruneKeepsView(c, Charged(c, m, k, now), now);
  }

  lemma ChargeKeepsView(c: Config, m: Buckets, n: Buckets, start: real, k: ClientKey, now: real)
    requires c.Valid() && start <= now && Sane(c, m, now) && Sane(c, n, now) && SameView(c, m, n, start)
    ensures Ready(c, m, k, now) == Ready(c, n, k, now)
    ensures SameView(c, Charged(c, m, k, now), Charged(c, n, k, now), now)
  {
    ReadyTokens(c, m, k, now);
    ReadyTokens(c, n, k, now);
    var m1, n1 := Charged(c, m, k, now), Charged(c, n, k, now);
    assert m1[k] == n1[k];
    forall j, t | t >= now ensures Ready(c, m1, j, t).tokens == Ready(c, n1, j, t).tokens {
      if j != k {
        assert Ready(c, m, j, t).tokens == Ready(c, n, j, t).tokens;
        assert Ready(c, m1, j, t) == Ready(c, m, j, t) && Ready(c, n1, j, t) == Ready(c, n, j, t);
      }
    }
  }

  lemma AllowKeepsView(c: Config, m: Buckets, n: Buckets, start: real, k: ClientKey, now: real)
    requires c.Valid() && c.burst as real <= Gain(c, c.pruneAfter) && start <= now
    requires Sane(c, m, now) && Sane(c, n, now) && SameView(c, m, n, start)
    ensures Allow(c, m, k, now).1 == Allow(c, n, k, now).1
    ensures SameView(c, Allow(c, m, k, now).0, Allow(c, n, k, now).0, now)
  {
    ChargeKeepsView(c, m, n, start, k, now);
    AllowMatchesCharge(c, m, k, now);
    AllowMatchesCharge(c, n, k, now);
    var m1, n1 := Charged(c, m, k, now), Charged(c, n, k, now);
    var m2, n2 := Allow(c, m, k, now).0, Allow(c, n, k, now).0;
    forall j, t | t >= now ensures Ready(c, m2, j, t).tokens == Ready(c, n2, j, t).tokens {
      assert Ready(c, m2, j, t).tokens == Ready(c, m1, j, t).tokens;
      assert Ready(c, n2, j, t).tokens == Ready(c, n1, j, t).tokens;
      assert Ready(c, m1, j, t).tokens == Ready(c, n1, j, t).tokens;
    }
  }

  ghost predicate Alike(c: Config, m: Buckets, n: Buckets, now: real) {
    Sane(c, m, now) && Sane(c, n, now) && SameView(c, m, n, now)
  }

  lemma AllowKeepsAlike(c: Config, m: Buckets, n: Buckets, start: real, k: ClientKey, now: real)
    requires c.Valid() && c.burst as real <= Gain(c, c.pruneAfter) && start <= now && Alike(c, m, n, start)
    ensures Allow(c, m, k, now).1 == Allow(c, n, k, now).1
    ensures Alike(c, Allow(c, m, k, now).0, Allow(c, n, k, now).0, now)
  {
    AllowKeepsSane(c, m, k, now);
    AllowKeepsSane(c, n, k, now);
    AllowKeepsView(c, m, n, start, k, now);
  }

  lemma {:induction false} AlikeAfter(c: Config, m: Buckets, n: Buckets, reqs: seq<Request>, i: nat, start: real)
    requires c.Valid() && c.burst as real <= Gain(c, c.pruneAfter) && i <= |reqs|
    requires Alike(c, m, n, start) && Ordered(reqs, start)
    ensures Alike(c, After(c, m, reqs, i), After(c, n, reqs, i), At(reqs, i, start))
  {
    if i > 0 {
      AlikeAfter(c, m, n, reqs, i - 1, start);
      AllowKeepsAlike(c, After(c, m, reqs, i - 1), After(c, n, reqs, i - 1), At(reqs, i - 1, start),
                      reqs[i - 1].key, reqs[i - 1].now);
    }
  }

  /** Pruning once at `now` changes the verdict of some later request. */
  ghost predicate PruneVisible(c: Config, m: Buckets, now: real, reqs: seq<Request>, i: nat)
    requires c.Valid()
  {
    Sane(c, m, now) && Ordered(reqs, now) && i < |reqs| &&
    VerdictAt(c, Prune(c, m, now), reqs, i) != VerdictAt(c, m, reqs, i)
  }

  lemma PruneInvisible(c: Config, m: Buckets, now: real, reqs: seq<Request>, i: nat)
    requires c.Valid() && c.burst as real <= Gain(c, c.pruneAfter)
    ensures !PruneVisible(c, m, now, reqs, i)
  {
    if Sane(c, m, now) && Ordered(reqs, now) && i < |reqs| {
      var p := Prune(c, m, now);
      PruneKeepsView(c, m, now);
      AlikeAfter(c, p, m, reqs, i, now);
      AllowKeepsAlike(c, After(c, p, reqs, i), After(c, m, reqs, i), At(reqs, i, now), reqs[i].key, reqs[i].now);
    }
  }

  function Repeat(k: ClientKey, now: real, n: nat): seq<Request> {
    seq(n, i => Request(k, now))
  }

  /** A burst of n requests at one instant is admitted while tokens last. */
  lemma {:induction false} BurstAt(c: Config, m: Buckets, k: ClientKey, now: real, total: nat, n: nat)
    requires c.Valid() && m.Keys <= {k} && Sane(c, m, now) && n <= total
    requires Ready(c, m, k, now).tokens >= n as real
    ensures var after := After(c, m, Repeat(k, now, total), n);
            after.Keys <= {k} && Sane(c, after, now) &&
            Ready(c, after, k, now).tokens == Ready(c, m, k, now).tokens - n as real
  {
    if n > 0 {
      BurstAt(c, m, k, now, total, n - 1);
      ChargeNow(c, After(c, m, Repeat(k, now, total), n - 1), k, now);
    }
  }

  /** One more request of a burst takes one token; a single bucket is never pruned. */
  lemma ChargeNow(c: Config, m: Buckets, k: ClientKey, now: real)
    requires c.Valid() && m.Keys <= {k} && Sane(c, m, now) && Ready(c, m, k, now).tokens >= 1.0
    ensures var after := Allow(c, m, k, now).0;
            after.Keys <= {k} && Sane(c, after, now) &&
            Ready(c, after, k, now).tokens == Ready(c, m, k, now).tokens - 1.0
  {
    ReadyTokens(c, m, k, now);
    AllowKeepsSane(c, m, k, now);
    var charged := Charged(c, m, k, now);
    assert charged.Keys == {k};
    assert |charged| == |charged.Keys| == 1;
    ChargedSane(c, m, k, now);
    ReadyTokens(c, charged, k, now);
    GainZero(c);
  }

  /** A time after the pruning age at which an empty bucket is not yet full again. */
  lemma NotYetFull(c: Config) returns (now: real)
    requires c.Valid() && c.burst as real > Gain(c, c.pruneAfter)
    ensures now > c.pruneAfter && Gain(c, now) < c.burst as real
  {
    var missing := c.burst as real - Gain(c, c.pruneAfter);
    var extra := missing / c.rate / 2.0;
    now := c.pruneAfter + extra;
    GainAdds(c, c.pruneAfter, extra);
    assert missing / c.rate > 0.0;
    assert Gain(c, extra) == missing / 2.0;
  }

  /** What a burst finds, from an empty bucket and from none. */
  lemma BurstAfter(c: Config, m: Buckets, k: ClientKey, now: real, i: nat)
    requires c.Valid() && m.Keys <= {k} && Sane(c, m, now) && i < c.burst && Ready(c, m, k, now).tokens >= i as real
    ensures VerdictAt(c, m, Repeat(k, now, c.burst), i).ok <==> Ready(c, m, k, now).tokens >= i as real + 1.0
  {
    BurstAt(c, m, k, now, c.burst, i);
    AllowCharges(c, After(c, m, Repeat(k, now, c.burst), i), k, now);
  }

  /** When burst exceeds rate * pruneAfter, pruning an empty bucket gives tokens away. */
  lemma PruneGivesAway(c: Config) returns (m: Buckets, now: real, reqs: seq<Request>, i: nat)
    requires c.Valid() && c.burst as real > Gain(c, c.pruneAfter)
    ensures PruneVisible(c, m, now, reqs, i)
  {
    var k := ClientKey("", "", "");
    m := map[k := Bucket(0.0, 0.0)];
    now := NotYetFull(c);
    ReadyTokens(c, m, k, now);
    var tokens := Ready(c, m, k, now).tokens;
    i := tokens.Floor;
    reqs := Repeat(k, now, c.burst);
    BurstAfter(c, m, k, now, i);
    assert Prune(c, m, now) == map[];
    BurstAfter(c, map[], k, now, i);
  }

  /** Pruning is invisible to every later request exactly when burst is at most rate * pruneAfter. */
  lemma PruneInvisibleIffBurstRefills(c: Config)
    requires c.Valid()
    ensures c.burst as real <= Gain(c, c.pruneAfter)
            <==> forall m, now, reqs, i :: !PruneVisible(c, m, now, reqs, i)
  {
    if c.burst as real <= Gain(c, c.pruneAfter) {
      forall m, now, reqs, i ensures !PruneVisible(c, m, now, reqs, i) {
        PruneInvisible(c, m, now, reqs, i);
      }
    } else {
      var m, now, reqs, i := PruneGivesAway(c);
    }
  }

  // Retry

  lemma CeilAtLeast(x: real)
    ensures Ceil(x) as real >= x && (Ceil(x) - 1) as real < x
  {
  }

  lemma OthersNeverDrain(c: Config, m: Buckets, k: ClientKey, r: Request, t: real)
    requires c.Valid() && Sane(c, m, r.now) && r.now <= t && r.key != k
    ensures Ready(c, Allow(c, m, r.key, r.now).0, k, t).tokens >= Ready(c, m, k, t).tokens
  {
    AllowCharges(c, m, r.key, r.now);
    Flow(c, m, k, r.now, t);
  }

  lemma {:induction false} OthersNeverDrainRun(c: Config, m: Buckets, k: ClientKey, reqs: seq<Request>, n: nat,
                                               start: real, t: real)
    requires c.Valid() && Sane(c, m, start) && Ordered(reqs, start) && n <= |reqs| && At(reqs, n, start) <= t
    requires forall i :: 0 <= i < |reqs| ==> reqs[i].key != k
    ensures Ready(c, After(c, m, reqs, n), k, t).tokens >= Ready(c, m, k, t).tokens
  {
    if n > 0 {
      OthersNeverDrainRun(c, m, k, reqs, n - 1, start, t);
      SaneAfter(c, m, reqs, n - 1, start);
      OthersNeverDrain(c, After(c, m, reqs, n - 1), k, reqs[n - 1], t);
    }
  }

  lemma RetryRefills(c: Config, tokens: real)
    requires c.Valid() && tokens < 1.0
    ensures tokens + Gain(c, RetryAfter(c, tokens) as real) >= 1.0
    ensures RetryAfter(c, tokens) > 1 ==> tokens + Gain(c, (RetryAfter(c, tokens) - 1) as real) < 1.0
  {
    var need := (1.0 - tokens) / c.rate;
    CeilAtLeast(need);
    assert Gain(c, need) == 1.0 - tokens;
    GainMonotone(c, need, RetryAfter(c, tokens) as real);
    if RetryAfter(c, tokens) > 1 {
      GainMonotone(c, (RetryAfter(c, tokens) - 1) as real, need);
    }
  }

  /** A denied request leaves the key's bucket as it was found, refilled up to now. */
  lemma DeniedBucket(c: Config, m: Buckets, k: ClientKey, now: real)
    requires c.Valid() && Sane(c, m, now) && !Allow(c, m, k, now).1.ok
    ensures var tokens := Ready(c, m, k, now).tokens;
            Allow(c, m, k, now) == (m[k := Bucket(tokens, now)], Verdict(RetryAfter(c, tokens), false)) && tokens < 1.0
    ensures Sane(c, Allow(c, m, k, now).0, now)
  {
    ReadyTokens(c, m, k, now);
    AllowKeepsSane(c, m, k, now);
  }

  lemma RefilledInTime(c: Config, m: Buckets, k: ClientKey, now: real, tokens: real, t: real)
    requires c.Valid() && Sane(c, m, now) && k in m && m[k] == Bucket(tokens, now) && tokens < 1.0
    requires t >= now + RetryAfter(c, tokens) as real
    ensures Ready(c, m, k, t).tokens >= 1.0
  {
    RetryRefills(c, tokens);
    GainMonotone(c, RetryAfter(c, tokens) as real, t - now);
    assert Sane(c, m, t);
    ReadyTokens(c, m, k, t);
  }

  /**
   Waiting the returned number of seconds, with no other request for the key, guarantees admission,
   whatever other clients do meanwhile and whether or not buckets are pruned.
   */
  lemma WaitingRetryAdmits(c: Config, m: Buckets, k: ClientKey, now: real, others: seq<Request>, t: real)
    requires c.Valid() && Sane(c, m, now) && !Allow(c, m, k, now).1.ok
    requires Ordered(others, now) && forall i :: 0 <= i < |others| ==> others[i].key != k
    requires t >= now + Allow(c, m, k, now).1.retry as real && t >= At(others, |others|, now)
    ensures Allow(c, After(c, Allow(c, m, k, now).0, others, |others|), k, t).1.ok
  {
    var denied, tokens := Allow(c, m, k, now).0, Ready(c, m, k, now).tokens;
    DeniedBucket(c, m, k, now);
    RefilledInTime(c, denied, k, now, tokens, t);
    OthersNeverDrainRun(c, denied, k, others, |others|, now, t);
    AllowCharges(c, After(c, denied, others, |others|), k, t);
  }

  /** And no shorter whole number of seconds is enough. */
  lemma RetryIsLeast(c: Config, m: Buckets, k: ClientKey, now: real, wait: nat)
    requires c.Valid() && Sane(c, m, now) && !Allow(c, m, k, now).1.ok
    requires 1 <= wait < Allow(c, m, k, now).1.retry
    ensures !Allow(c, Allow(c, m, k, now).0, k, now + wait as real).1.ok
  {
    var state := Ready(c, m, k, now);
    var retry := Allow(c, m, k, now).1.retry;
    ReadyTokens(c, m, k, now);
    RetryRefills(c, state.tokens);
    GainMonotone(c, wait as real, (retry - 1) as real);
  }

  /** Pruning drops exactly the buckets that were idle for longer than pruneAfter, and keeps the rest. */
  lemma PruningDropsIdle(c: Config, m: Buckets, now: real, k: ClientKey)
    ensures k in Prune(c, m, now) <==> k in m && now - m[k].last <= c.pruneAfter
    ensures k in Prune(c, m, now) ==> Prune(c, m, now)[k] == m[k]
  {
  }

  /** What the constructor makes of its arguments: without a burst it is a minute's worth, but no more than 60. */
  lemma NewLimiterIs(perMinute: int, burst: int)
    ensures NewConfig(perMinute, burst).None? <==> perMinute <= 0
    ensures perMinute > 0 ==>
              var c := NewConfig(perMinute, burst).value;
              Gain(c, 60.0) == perMinute as real && c.pruneAfter == 60.0 * 60.0 && c.maxBuckets == 100_000 &&
              (burst > 0 ==> c.burst == burst) &&
              (burst <= 0 ==> c.burst <= 60 && c.burst <= perMinute && (c.burst == 60 || c.burst == perMinute))
  {
  }

  /** The constructor's limiters refill within an hour unless the burst exceeds 60 minutes of rate. */
  lemma NewLimiterRefillsIff(perMinute: int, burst: int)
    requires perMinute > 0
    ensures var c := NewConfig(perMinute, burst).value;
            c.Valid() && (c.burst as real <= Gain(c, c.pruneAfter) <==> burst <= 60 * perMinute)
  {
    var c := NewConfig(perMinute, burst).value;
    assert Gain(c, c.pruneAfter) == (60 * perMinute) as real;
  }

  // Without the condition the bound fails: drain a key, push it out with other keys, and drain it again

  const DRAINED := ClientKey("", "", "")

  function OtherKey(i: nat): ClientKey {
    ClientKey("", seq(i + 1, _ => 'x'), "")
  }

  /** The first n other keys. */
  ghost function OtherKeys(n: nat): (ks: set<ClientKey>)
    ensures |ks| == n && DRAINED !in ks
    ensures forall k :: k in ks ==> 1 <= |k.subject| <= n
  {
    if n == 0 then {}
    else
      var earlier := OtherKeys(n - 1);
      assert |OtherKey(n - 1).subject| == n;
      earlier + {OtherKey(n - 1)}
  }

  /** Burst requests of the drained key at 0, one of each other key at `now`, and burst requests of the first again. */
  function FloodRequest(c: Config, now: real, i: nat): Request {
    if i < c.burst then Request(DRAINED, 0.0)
    else if i < c.burst + c.maxBuckets then Request(OtherKey(i - c.burst), now)
    else Request(DRAINED, now)
  }

  function Flood(c: Config, now: real): (reqs: seq<Request>)
    requires c.Valid()
    ensures |reqs| == 2 * c.burst + c.maxBuckets
  {
    seq(2 * c.burst + c.maxBuckets, i requires i >= 0 => FloodRequest(c, now, i))
  }

  lemma FloodOrdered(c: Config, now: real)
    requires c.Valid() && now >= 0.0
    ensures Ordered(Flood(c, now), 0.0)
  {
  }

  lemma {:induction false} AdmittedSplits(c: Config, reqs: seq<Request>, k: ClientKey, lo: nat, mid: nat, hi: nat)
    requires c.Valid() && lo <= mid <= hi <= |reqs|
    ensures Admitted(c, map[], reqs, k, lo, hi) ==
            Admitted(c, map[], reqs, k, lo, mid) + Admitted(c, map[], reqs, k, mid, hi)
    decreases hi
  {
    if mid < hi {
      AdmittedSplits(c, reqs, k, lo, mid, hi - 1);
    }
  }

  lemma {:induction false} OthersAdmitNone(c: Config, reqs: seq<Request>, k: ClientKey, lo: nat, hi: nat)
    requires c.Valid() && lo <= hi <= |reqs| && forall i :: lo <= i < hi ==> reqs[i].key != k
    ensures Admitted(c, map[], reqs, k, lo, hi) == 0.0
    decreases hi
  {
    if lo < hi {
      OthersAdmitNone(c, reqs, k, lo, hi - 1);
    }
  }

  /** The key has that many tokens now. */
  ghost predicate Holds(c: Config, m: Buckets, k: ClientKey, now: real, tokens: real) {
    Sane(c, m, now) && Ready(c, m, k, now).tokens == tokens
  }

  /** A request that finds a token takes it, and is not pushed out by what it prunes. */
  lemma TakesToken(c: Config, m: Buckets, k: ClientKey, now: real, tokens: real)
    requires c.Valid() && Holds(c, m, k, now, tokens) && tokens >= 1.0
    ensures Allow(c, m, k, now).1.ok && Holds(c, Allow(c, m, k, now).0, k, now, tokens - 1.0)
    ensures k in Allow(c, m, k, now).0 && Allow(c, m, k, now).0[k] == Bucket(tokens - 1.0, now)
  {
    ReadyTokens(c, m, k, now);
    AllowKeepsSane(c, m, k, now);
    AllowCharges(c, m, k, now);
  }

  /** The same within a run. */
  lemma NextTakesToken(c: Config, reqs: seq<Request>, k: ClientKey, now: real, n: nat, tokens: real)
    requires c.Valid() && n < |reqs| && reqs[n] == Request(k, now)
    requires Holds(c, After(c, map[], reqs, n), k, now, tokens) && tokens >= 1.0
    ensures Admit(c, map[], reqs, k, n) == 1.0
    ensures var after := After(c, map[], reqs, n + 1);
            Holds(c, after, k, now, tokens - 1.0) && k in after && after[k] == Bucket(tokens - 1.0, now)
  {
    TakesToken(c, After(c, map[], reqs, n), k, now, tokens);
    AfterNext(c, reqs, n, Request(k, now));
  }

  lemma AfterNext(c: Config, reqs: seq<Request>, n: nat, r: Request)
    requires c.Valid() && n < |reqs| && reqs[n] == r
    ensures After(c, map[], reqs, n + 1) == Allow(c, After(c, map[], reqs, n), r.key, r.now).0
  {
  }

  lemma AdmittedNext(c: Config, reqs: seq<Request>, k: ClientKey, lo: nat, n: nat)
    requires c.Valid() && lo <= n < |reqs|
    ensures Admitted(c, map[], reqs, k, lo, n + 1) == Admitted(c, map[], reqs, k, lo, n) + Admit(c, map[], reqs, k, n)
  {
  }

  /** After n admitted requests of one burst: the tokens left, and how many were admitted. */
  ghost predicate Drawn(c: Config, reqs: seq<Request>, k: ClientKey, now: real, lo: nat, n: nat, left: real)
    requires c.Valid() && lo + n <= |reqs|
  {
    var after := After(c, map[], reqs, lo + n);
    Holds(c, after, k, now, left) && Admitted(c, map[], reqs, k, lo, lo + n) == n as real &&
    (n > 0 ==> k in after && after[k] == Bucket(left, now))
  }

  lemma DrawsNext(c: Config, reqs: seq<Request>, k: ClientKey, now: real, lo: nat, n: nat, left: real)
    requires c.Valid() && lo + n < |reqs| && reqs[lo + n] == Request(k, now)
    requires Drawn(c, reqs, k, now, lo, n, left) && left >= 1.0
    ensures Drawn(c, reqs, k, now, lo, n + 1, left - 1.0)
  {
    NextTakesToken(c, reqs, k, now, lo + n, left);
    AdmittedNext(c, reqs, k, lo, lo + n);
    assert lo + n + 1 == lo + (n + 1);
  }

  /** n requests of one key at one instant are all admitted while there are n tokens. */
  lemma {:induction false} BurstAdmitted(c: Config, reqs: seq<Request>, k: ClientKey, now: real, lo: nat, n: nat,
                                         tokens: real)
    requires c.Valid() && lo + n <= |reqs| && forall i :: lo <= i < lo + n ==> reqs[i] == Request(k, now)
    requires Holds(c, After(c, map[], reqs, lo), k, now, tokens) && tokens >= n as real
    ensures Drawn(c, reqs, k, now, lo, n, tokens - n as real)
  {
    if n > 0 {
      BurstAdmitted(c, reqs, k, now, lo, n - 1, tokens);
      DrawsNext(c, reqs, k, now, lo, n - 1, tokens - (n - 1) as real);
    }
  }

  lemma {:induction false} OnlyItsKeys(c: Config, reqs: seq<Request>, n: nat, ks: set<ClientKey>)
    requires c.Valid() && n <= |reqs| && forall i :: 0 <= i < n ==> reqs[i].key in ks
    ensures After(c, map[], reqs, n).Keys <= ks
  {
    if n > 0 {
      OnlyItsKeys(c, reqs, n - 1, ks);
    }
  }

  /** The drained key's empty bucket and the first n others are all there is. */
  ghost predicate Filled(m: Buckets, n: nat, now: real) {
    m.Keys == {DRAINED} + OtherKeys(n) && m[DRAINED] == Bucket(0.0, 0.0)
  }

  lemma Drains(c: Config, now: real)
    requires c.Valid() && now >= 0.0
    ensures Admitted(c, map[], Flood(c, now), DRAINED, 0, c.burst) == c.burst as real
    ensures Filled(After(c, map[], Flood(c, now), c.burst), 0, now)
  {
    var reqs := Flood(c, now);
    BurstAdmitted(c, reqs, DRAINED, 0.0, 0, c.burst, c.burst as real);
    OnlyItsKeys(c, reqs, c.burst, {DRAINED});
  }

  /** One more key while there is room. */
  lemma FillsNext(c: Config, m: Buckets, n: nat, now: real)
    requires c.Valid() && Filled(m, n, now) && n + 1 < c.maxBuckets
    ensures Filled(Allow(c, m, OtherKey(n), now).0, n + 1, now)
  {
    NewKey(m, n, now);
    var charged := m[OtherKey(n) := Bucket(c.burst as real - 1.0, now)];
    assert charged.Keys == {DRAINED} + OtherKeys(n + 1);
    assert |charged| == |charged.Keys| == n + 2;
  }

  lemma NewKey(m: Buckets, n: nat, now: real)
    requires Filled(m, n, now)
    ensures OtherKey(n) !in m && OtherKey(n) != DRAINED && OtherKeys(n + 1) == OtherKeys(n) + {OtherKey(n)}
    ensures |m| == n + 1
  {
    assert |OtherKey(n).subject| == n + 1;
    assert |m| == |m.Keys|;
  }

  /** The last key overfills the map, and the old bucket goes. */
  lemma PushesOut(c: Config, m: Buckets, n: nat, now: real)
    requires c.Valid() && Filled(m, n, now) && n + 1 == c.maxBuckets && now > c.pruneAfter
    ensures DRAINED !in Allow(c, m, OtherKey(n), now).0
  {
    NewKey(m, n, now);
    var charged := m[OtherKey(n) := Bucket(c.burst as real - 1.0, now)];
    assert charged.Keys == {DRAINED} + OtherKeys(n + 1);
    assert |charged| == |charged.Keys| == n + 2;
    assert charged[DRAINED].last < now - c.pruneAfter;
  }

  lemma {:induction false} Fills(c: Config, now: real, n: nat)
    requires c.Valid() && now > c.pruneAfter && n < c.maxBuckets
    ensures Filled(After(c, map[], Flood(c, now), c.burst + n), n, now)
  {
    if n == 0 {
      Drains(c, now);
    } else {
      Fills(c, now, n - 1);
      var reqs, last := Flood(c, now), c.burst + n - 1;
      AfterNext(c, reqs, last, Request(OtherKey(n - 1), now));
      FillsNext(c, After(c, map[], reqs, last), n - 1, now);
    }
  }

  lemma Overfills(c: Config, now: real)
    requires c.Valid() && now > c.pruneAfter
    ensures DRAINED !in After(c, map[], Flood(c, now), c.burst + c.maxBuckets)
  {
    var reqs, n := Flood(c, now), c.maxBuckets - 1;
    Fills(c, now, n);
    AfterNext(c, reqs, c.burst + n, Request(OtherKey(n), now));
    PushesOut(c, After(c, map[], reqs, c.burst + n), n, now);
  }

  /** Pushed out, the drained key is as good as new. */
  lemma FullAgain(c: Config, now: real)
    requires c.Valid() && now > c.pruneAfter
    ensures Holds(c, After(c, map[], Flood(c, now), c.burst + c.maxBuckets), DRAINED, now, c.burst as real)
  {
    var reqs, lo := Flood(c, now), c.burst + c.maxBuckets;
    Overfills(c, now);
    FloodOrdered(c, now);
    SaneAfter(c, map[], reqs, lo, 0.0);
  }

  lemma DrawnCount(c: Config, reqs: seq<Request>, k: ClientKey, now: real, lo: nat, n: nat, left: real)
    requires c.Valid() && lo + n == |reqs| && Drawn(c, reqs, k, now, lo, n, left)
    ensures Admitted(c, map[], reqs, k, lo, |reqs|) == n as real
  {
  }

  lemma DrainsAgain(c: Config, now: real)
    requires c.Valid() && now > c.pruneAfter
    ensures var reqs := Flood(c, now);
            Admitted(c, map[], reqs, DRAINED, c.burst + c.maxBuckets, |reqs|) == c.burst as real
  {
    var reqs, lo := Flood(c, now), c.burst + c.maxBuckets;
    FullAgain(c, now);
    assert forall i :: lo <= i < lo + c.burst ==> reqs[i] == Request(DRAINED, now);
    BurstAdmitted(c, reqs, DRAINED, now, lo, c.burst, c.burst as real);
    DrawnCount(c, reqs, DRAINED, now, lo, c.burst, 0.0);
  }

  lemma DrainsOnce(c: Config, now: real)
    requires c.Valid() && now >= 0.0
    ensures Admitted(c, map[], Flood(c, now), DRAINED, 0, c.burst) == c.burst as real
  {
    Drains(c, now);
  }

  /** The requests of the window i..j for the key stay within the bound. */
  ghost predicate WithinBound(c: Config, reqs: seq<Request>, k: ClientKey, i: nat, j: nat)
    requires c.Valid()
  {
    i < j <= |reqs| && Ordered(reqs, reqs[0].now) ==>
      Admitted(c, map[], reqs, k, i, j) <= c.burst as real + Gain(c, reqs[j - 1].now - reqs[i].now)
  }

  lemma FloodExceedsBound(c: Config) returns (reqs: seq<Request>)
    requires c.Valid() && c.burst as real > Gain(c, c.pruneAfter)
    ensures !WithinBound(c, reqs, DRAINED, 0, |reqs|)
  {
    var now := NotYetFull(c);
    reqs := Flood(c, now);
    FloodOrdered(c, now);
    FloodCount(c, now, |reqs|);
    assert reqs[|reqs| - 1].now - reqs[0].now == now;
  }

  lemma OthersFlood(c: Config, now: real)
    requires c.Valid()
    ensures Admitted(c, map[], Flood(c, now), DRAINED, c.burst, c.burst + c.maxBuckets) == 0.0
  {
    var reqs, b, lo := Flood(c, now), c.burst, c.burst + c.maxBuckets;
    forall i | b <= i < lo ensures reqs[i].key != DRAINED {
      assert |OtherKey(i - b).subject| > 0;
    }
    OthersAdmitNone(c, reqs, DRAINED, b, lo);
  }

  lemma TwoBursts(c: Config, reqs: seq<Request>, k: ClientKey, a: nat, b: nat, burst: real)
    requires c.Valid() && a <= b <= |reqs| && Admitted(c, map[], reqs, k, a, b) == 0.0
    requires Admitted(c, map[], reqs, k, 0, a) == burst && Admitted(c, map[], reqs, k, b, |reqs|) == burst
    ensures Admitted(c, map[], reqs, k, 0, |reqs|) == 2.0 * burst
  {
    AdmittedSplits(c, reqs, k, 0, a, |reqs|);
    AdmittedSplits(c, reqs, k, a, b, |reqs|);
  }

  lemma FloodCount(c: Config, now: real, n: nat)
    requires c.Valid() && now > c.pruneAfter && n == |Flood(c, now)|
    ensures Admitted(c, map[], Flood(c, now), DRAINED, 0, n) == 2.0 * c.burst as real
  {
    DrainsOnce(c, now);
    OthersFlood(c, now);
    DrainsAgain(c, now);
    TwoBursts(c, Flood(c, now), DRAINED, c.burst, c.burst + c.maxBuckets, c.burst as real);
  }

  /**
   When the window bound holds: for every run, key and window the admitted requests number at most
   burst + rate * length, if and only if burst is at most rate * pruneAfter.
   */
  lemma WindowBoundIffBurstRefills(c: Config)
    requires c.Valid()
    ensures c.burst as real <= Gain(c, c.pruneAfter) <==>
            forall reqs: seq<Request>, k: ClientKey, i: nat, j: nat :: WithinBound(c, reqs, k, i, j)
  {
    if c.burst as real <= Gain(c, c.pruneAfter) {
      forall reqs: seq<Request>, k: ClientKey, i: nat, j: nat ensures WithinBound(c, reqs, k, i, j) {
        if i < j <= |reqs| && Ordered(reqs, reqs[0].now) {
          WindowBound(c, reqs, k, i, j);
        }
      }
    } else {
      var reqs := FloodExceedsBound(c);
    }
  }
}
