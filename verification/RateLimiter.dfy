/**
 The scoped token bucket. Times are samples of a monotonic clock, in seconds, taken before the lock, so
 in lock order they may go back; a difference that would be negative counts as zero.
 */
module RateLimiter {
  type Key = (string, string)

  datatype Limits = Limits(enabled: bool, rps: nat, burst: nat)

  datatype Bucket = Bucket(tokens: real, lastRefill: real)

  type Buckets = map<Key, Bucket>

  datatype Call = Call(key: Key, now: real)

  const MAX_BUCKETS: nat := 10_000
  const IDLE_SECONDS: real := 3600.0

  function Elapsed(now: real, earlier: real): real {
    if now > earlier then now - earlier else 0.0
  }

  /** Tokens that accrue over a time. */
  function Gain(l: Limits, seconds: real): real {
    seconds * l.rps as real
  }

  function Min(a: real, b: real): real {
    if a <= b then a else b
  }

  function Refilled(l: Limits, b: Bucket, now: real): real {
    Min(b.tokens + Gain(l, Elapsed(now, b.lastRefill)), l.burst as real)
  }

  function Evict(buckets: Buckets, now: real): Buckets {
    if |buckets| > MAX_BUCKETS then
      map key | key in buckets && Elapsed(now, buckets[key].lastRefill) < IDLE_SECONDS :: buckets[key]
    else buckets
  }

  function BucketAt(l: Limits, buckets: Buckets, key: Key, now: real): Bucket {
    if key in buckets then buckets[key] else Bucket(l.burst as real, now)
  }

  /** Refill and take a token if there is a whole one. */
  function Consume(l: Limits, buckets: Buckets, c: Call): (Buckets, bool) {
    var tokens := Refilled(l, BucketAt(l, buckets, c.key, c.now), c.now);
    var allowed := tokens >= 1.0;
    (buckets[c.key := Bucket(if allowed then tokens - 1.0 else tokens, c.now)], allowed)
  }

  function Check(l: Limits, buckets: Buckets, c: Call): (Buckets, bool) {
    if !l.enabled then (buckets, true) else Consume(l, Evict(buckets, c.now), c)
  }

  /** The bucket survives the call's eviction: there are at most 10000, or it was used within the hour. */
  predicate Survives(buckets: Buckets, key: Key, now: real) {
    key in buckets && (|buckets| <= 10_000 || now < buckets[key].lastRefill + 3600.0)
  }

  /** The tokens the scope has when it is asked: never more than the burst, which a new scope starts with. */
  function TokensFound(l: Limits, buckets: Buckets, key: Key, now: real): real {
    if !Survives(buckets, key, now) then l.burst as real
    else
      var waited := if now > buckets[key].lastRefill then now - buckets[key].lastRefill else 0.0;
      var filled := buckets[key].tokens + waited * l.rps as real;
      if filled < l.burst as real then filled else l.burst as real
  }

  /** What one call of an enabled limiter does: a whole token allows it and is taken, and surviving buckets stay as they are. */
  ghost predicate Charged(l: Limits, before: Buckets, after: Buckets, key: Key, now: real, allowed: bool) {
    && (allowed <==> TokensFound(l, before, key, now) >= 1.0)
    && key in after && after[key] == Bucket(TokensFound(l, before, key, now) - if allowed then 1.0 else 0.0, now)
    && (forall other :: other != key ==> (other in after <==> Survives(before, other, now)))
    && (forall other :: other != key && other in after ==> after[other] == before[other])
  }

  lemma CheckMeans(l: Limits, buckets: Buckets, c: Call)
    ensures var (after, allowed) := Check(l, buckets, c);
            if l.enabled then Charged(l, buckets, after, c.key, c.now, allowed) else allowed && after == buckets
  {
  }

  class ScopedRateLimiter {
    const limits: Limits
    var buckets: Buckets

    constructor (limits: Limits)
      ensures this.limits == limits && buckets == map[]
    {
      this.limits := limits;
      buckets := map[];
    }

    method RetainRecent(now: real)
      modifies this
      ensures buckets == map key | key in old(buckets) && Elapsed(now, old(buckets)[key].lastRefill) < IDLE_SECONDS :: old(buckets)[key]
    {
      ghost var all := buckets;
      var todo := buckets.Keys;
      while todo != {}
        invariant todo <= all.Keys
        invariant forall key :: key in buckets ==> key in all && buckets[key] == all[key]
        invariant forall key :: key in all ==> (key in buckets <==> key in todo || Elapsed(now, all[key].lastRefill) < IDLE_SECONDS)
        decreases todo
      {
        var key :| key in todo;
        if !(Elapsed(now, buckets[key].lastRefill) < IDLE_SECONDS) {
          buckets := buckets - {key};
        }
        todo := todo - {key};
      }
    }

    method CheckAndConsume(tenant: string, user: string, now: real) returns (allowed: bool)
      modifies this
      ensures (buckets, allowed) == Check(limits, old(buckets), Call((tenant, user), now))
      ensures if limits.enabled then Charged(limits, old(buckets), buckets, (tenant, user), now, allowed) else allowed && buckets == old(buckets)
    {
      CheckMeans(limits, buckets, Call((tenant, user), now));
      hide Charged;
      if !limits.enabled {
        return true;
      }
      if |buckets| > MAX_BUCKETS {
        RetainRecent(now);
      }
      var key := (tenant, user);
      if key !in buckets {
        buckets := buckets[key := Bucket(limits.burst as real, now)];
      }
      var tokens := Min(buckets[key].tokens + Gain(limits, Elapsed(now, buckets[key].lastRefill)), limits.burst as real);
      buckets := buckets[key := Bucket(tokens, now)];
      if buckets[key].tokens >= 1.0 {
        buckets := buckets[key := Bucket(buckets[key].tokens - 1.0, now)];
        assert buckets == Evict(old(buckets), now)[key := Bucket(tokens - 1.0, now)];
        return true;
      }
      assert buckets == Evict(old(buckets), now)[key := Bucket(tokens, now)];
      return false;
    }
  }

  // ---- Runs ----

  function Run(l: Limits, buckets: Buckets, calls: seq<Call>): Buckets {
    if calls == [] then buckets else Check(l, Run(l, buckets, calls[..|calls| - 1]), calls[|calls| - 1]).0
  }

  function Answers(l: Limits, buckets: Buckets, calls: seq<Call>): seq<bool> {
    if calls == [] then []
    else
      var before := calls[..|calls| - 1];
      Answers(l, buckets, before) + [Check(l, Run(l, buckets, before), calls[|calls| - 1]).1]
  }

  /** How many of the key's calls were allowed. */
  function Allowed(l: Limits, buckets: Buckets, calls: seq<Call>, key: Key): nat {
    if calls == [] then 0
    else
      var before, c := calls[..|calls| - 1], calls[|calls| - 1];
      Allowed(l, buckets, before, key) + if c.key == key && Check(l, Run(l, buckets, before), c).1 then 1 else 0
  }

  /** The sum of the clock's forward moves. */
  function Climb(calls: seq<Call>): real {
    if |calls| < 2 then 0.0
    else Climb(calls[..|calls| - 1]) + Elapsed(calls[|calls| - 1].now, calls[|calls| - 2].now)
  }

  predicate NonDecreasing(calls: seq<Call>) {
    forall i, j :: 0 <= i < j < |calls| ==> calls[i].now <= calls[j].now
  }

  /** An idle bucket is full by the time it may be evicted. */
  predicate FullWhenIdle(l: Limits) {
    3600 * l.rps >= l.burst
  }

  predicate Bounded(l: Limits, buckets: Buckets) {
    forall key :: key in buckets ==> 0.0 <= buckets[key].tokens <= l.burst as real
  }

  /** The tokens the key would find. */
  function Level(l: Limits, buckets: Buckets, key: Key, now: real): real {
    if key in buckets then Refilled(l, buckets[key], now) else l.burst as real
  }

  lemma GainGrows(l: Limits, a: real, b: real)
    requires 0.0 <= a <= b
    ensures 0.0 <= Gain(l, a) <= Gain(l, b)
    ensures Gain(l, b) == Gain(l, a) + Gain(l, b - a)
  {
    assert (b - a) * l.rps as real >= 0.0 && a * l.rps as real >= 0.0;
  }

  lemma GainWhenIdle(l: Limits)
    requires FullWhenIdle(l)
    ensures Gain(l, IDLE_SECONDS) >= l.burst as real
  {
    assert (3600 * l.rps) as real == 3600.0 * l.rps as real;
  }

  lemma EvictKeepsLevel(l: Limits, buckets: Buckets, now: real, key: Key)
    requires FullWhenIdle(l) && Bounded(l, buckets)
    ensures Level(l, Evict(buckets, now), key, now) == Level(l, buckets, key, now)
    ensures Bounded(l, Evict(buckets, now))
  {
    hide Gain, FullWhenIdle;
    if key in buckets && key !in Evict(buckets, now) {
      GainWhenIdle(l);
      GainGrows(l, IDLE_SECONDS, Elapsed(now, buckets[key].lastRefill));
    }
  }

  lemma ConsumeLevel(l: Limits, buckets: Buckets, c: Call, key: Key)
    requires Bounded(l, buckets)
    ensures Bounded(l, Consume(l, buckets, c).0)
    ensures Level(l, Consume(l, buckets, c).0, key, c.now) ==
            Level(l, buckets, key, c.now) - if c.key == key && Consume(l, buckets, c).1 then 1.0 else 0.0
  {
    GainGrows(l, 0.0, Elapsed(c.now, BucketAt(l, buckets, c.key, c.now).lastRefill));
    assert Gain(l, 0.0) == 0.0;
    hide Gain;
  }

  /** A call lowers the level of its own key by the token it takes, and no other key's. */
  lemma CheckLevel(l: Limits, buckets: Buckets, c: Call, key: Key)
    requires l.enabled && FullWhenIdle(l) && Bounded(l, buckets)
    ensures Bounded(l, Check(l, buckets, c).0)
    ensures Level(l, Check(l, buckets, c).0, key, c.now) ==
            Level(l, buckets, key, c.now) - if c.key == key && Check(l, buckets, c).1 then 1.0 else 0.0
  {
    hide Level, Evict, Consume, Bounded;
    EvictKeepsLevel(l, buckets, c.now, key);
    ConsumeLevel(l, Evict(buckets, c.now), c, key);
  }

  lemma LevelOverTime(l: Limits, buckets: Buckets, key: Key, earlier: real, now: real)
    requires Bounded(l, buckets)
    ensures 0.0 <= Level(l, buckets, key, now) <= l.burst as real
    ensures Level(l, buckets, key, now) <= Level(l, buckets, key, earlier) + Gain(l, Elapsed(now, earlier))
  {
    GainGrows(l, 0.0, Elapsed(now, earlier));
    if key in buckets {
      var last := buckets[key].lastRefill;
      GainGrows(l, 0.0, Elapsed(now, last));
      if Elapsed(earlier, last) <= Elapsed(now, last) {
        GainGrows(l, Elapsed(earlier, last), Elapsed(now, last));
        GainGrows(l, Elapsed(now, last) - Elapsed(earlier, last), Elapsed(now, earlier));
      } else {
        GainGrows(l, Elapsed(now, last), Elapsed(earlier, last));
      }
    }
    hide Gain;
  }

  lemma {:induction false} BoundedAlways(l: Limits, buckets: Buckets, calls: seq<Call>)
    requires l.enabled && FullWhenIdle(l) && Bounded(l, buckets)
    ensures Bounded(l, Run(l, buckets, calls))
  {
    hide Check, Bounded, FullWhenIdle;
    if calls != [] {
      BoundedAlways(l, buckets, calls[..|calls| - 1]);
      CheckLevel(l, Run(l, buckets, calls[..|calls| - 1]), calls[|calls| - 1], calls[|calls| - 1].key);
    }
  }

  lemma {:induction false} LevelPaysForCalls(l: Limits, buckets: Buckets, calls: seq<Call>, key: Key)
    requires l.enabled && FullWhenIdle(l) && Bounded(l, buckets) && calls != []
    ensures Allowed(l, buckets, calls, key) as real + Level(l, Run(l, buckets, calls), key, calls[|calls| - 1].now)
            <= l.burst as real + Gain(l, Climb(calls))
    ensures Climb(calls) >= 0.0
  {
    hide Check, Bounded, FullWhenIdle, Level, Gain;
    var n := |calls| - 1;
    var before, c := calls[..n], calls[n];
    var state := Run(l, buckets, before);
    BoundedAlways(l, buckets, before);
    CheckLevel(l, state, c, key);
    if n == 0 {
      LevelOverTime(l, state, key, c.now, c.now);
      assert Allowed(l, buckets, before, key) == 0;
      GainGrows(l, 0.0, 0.0);
    } else {
      LevelPaysForCalls(l, buckets, before, key);
      LevelOverTime(l, state, key, calls[n - 1].now, c.now);
      GainGrows(l, Climb(before), Climb(calls));
    }
  }

  lemma {:induction false} ClimbIsWindow(calls: seq<Call>)
    requires NonDecreasing(calls) && calls != []
    ensures Climb(calls) == calls[|calls| - 1].now - calls[0].now
  {
    if |calls| >= 2 {
      ClimbIsWindow(calls[..|calls| - 1]);
    }
  }

  /**
   The window bound, from any state the limiter can be in: whatever the samples, a scope's allowed
   calls number at most the burst plus the rate times the clock's forward moves; with samples that
   never go back in lock order, that is the burst plus the rate times the window's length.
   */
  lemma WindowBound(l: Limits, past: seq<Call>, window: seq<Call>, key: Key)
    requires l.enabled && FullWhenIdle(l) && window != []
    ensures Allowed(l, Run(l, map[], past), window, key) as real <= l.burst as real + Gain(l, Climb(window))
    ensures NonDecreasing(window) ==>
              Allowed(l, Run(l, map[], past), window, key) as real <= l.burst as real + Gain(l, window[|window| - 1].now - window[0].now)
  {
    hide Gain, FullWhenIdle, Check, NonDecreasing;
    BoundedAlways(l, map[], past);
    var state := Run(l, map[], past);
    LevelPaysForCalls(l, state, window, key);
    BoundedAlways(l, state, window);
    LevelOverTime(l, Run(l, state, window), key, 0.0, window[|window| - 1].now);
    if NonDecreasing(window) {
      ClimbIsWindow(window);
    }
  }

  /** Samples that go back break the bound of the plain window: three calls are allowed within one second at one per second with a burst of one. */
  lemma BackwardsClockExample(key: Key)
    ensures var l := Limits(true, 1, 1);
            var calls := [Call(key, 1.0), Call(key, 0.0), Call(key, 1.0), Call(key, 0.0), Call(key, 1.0)];
            Answers(l, map[], calls) == [true, false, true, false, true] && l.burst as real + Gain(l, 1.0) == 2.0
  {
    var l := Limits(true, 1, 1);
    var c1, c0 := Call(key, 1.0), Call(key, 0.0);
    var s1 := map[key := Bucket(0.0, 1.0)];
    var s0 := map[key := Bucket(0.0, 0.0)];
    assert Check(l, map[], c1) == (s1, true);
    assert s1.Keys == {key} && s0.Keys == {key};
    assert |s1| == |s1.Keys| && |s0| == |s0.Keys|;
    assert s1[key := Bucket(0.0, 0.0)] == s0 && s0[key := Bucket(0.0, 1.0)] == s1;
    assert Check(l, s1, c0) == (s0, false);
    assert Check(l, s0, c1) == (s1, true);
    hide Check;
    assert [c1, c0, c1, c0, c1][..4] == [c1, c0, c1, c0] && [c1, c0, c1, c0][..3] == [c1, c0, c1]
        && [c1, c0, c1][..2] == [c1, c0] && [c1, c0][..1] == [c1] && [c1][..0] == [];
    assert Run(l, map[], [c1]) == s1 && Answers(l, map[], [c1]) == [true];
    assert Run(l, map[], [c1, c0]) == s0 && Answers(l, map[], [c1, c0]) == [true, false];
    assert Run(l, map[], [c1, c0, c1]) == s1 && Answers(l, map[], [c1, c0, c1]) == [true, false, true];
    assert Run(l, map[], [c1, c0, c1, c0]) == s0 && Answers(l, map[], [c1, c0, c1, c0]) == [true, false, true, false];
  }

  // ---- Against the limiter that never evicts ----

  function RunForever(l: Limits, buckets: Buckets, calls: seq<Call>): Buckets {
    if calls == [] then buckets else Consume(l, RunForever(l, buckets, calls[..|calls| - 1]), calls[|calls| - 1]).0
  }

  function AnswersForever(l: Limits, buckets: Buckets, calls: seq<Call>): seq<bool> {
    if calls == [] then []
    else
      var before := calls[..|calls| - 1];
      AnswersForever(l, buckets, before) + [Consume(l, RunForever(l, buckets, before), calls[|calls| - 1]).1]
  }

  /** The evicting table lacks only buckets that are full by now. */
  predicate Mirrors(l: Limits, evicting: Buckets, forever: Buckets, now: real) {
    && Bounded(l, forever)
    && (forall key :: key in evicting ==> key in forever && evicting[key] == forever[key])
    && (forall key :: key in forever ==>
          && forever[key].lastRefill <= now
          && (key !in evicting ==> Refilled(l, forever[key], now) == l.burst as real))
  }

  lemma MirrorsLater(l: Limits, evicting: Buckets, forever: Buckets, now: real, later: real)
    requires Mirrors(l, evicting, forever, now) && now <= later
    ensures Mirrors(l, evicting, forever, later)
  {
    forall key | key in forever && key !in evicting
      ensures Refilled(l, forever[key], later) == l.burst as real
    {
      GainGrows(l, Elapsed(now, forever[key].lastRefill), Elapsed(later, forever[key].lastRefill));
    }
  }

  lemma MirrorsEvict(l: Limits, evicting: Buckets, forever: Buckets, now: real)
    requires FullWhenIdle(l) && Mirrors(l, evicting, forever, now)
    ensures Mirrors(l, Evict(evicting, now), forever, now)
  {
    forall key | key in forever && key !in Evict(evicting, now)
      ensures Refilled(l, forever[key], now) == l.burst as real
    {
      if key in evicting {
        GainWhenIdle(l);
        GainGrows(l, IDLE_SECONDS, Elapsed(now, forever[key].lastRefill));
      }
    }
  }

  lemma MirrorsConsume(l: Limits, evicting: Buckets, forever: Buckets, c: Call)
    requires Mirrors(l, evicting, forever, c.now)
    ensures Consume(l, evicting, c).1 == Consume(l, forever, c).1
    ensures Mirrors(l, Consume(l, evicting, c).0, Consume(l, forever, c).0, c.now)
  {
    ConsumeLevel(l, forever, c, c.key);
    assert Gain(l, 0.0) == 0.0;
    hide Gain;
    assert Refilled(l, BucketAt(l, evicting, c.key, c.now), c.now) == Refilled(l, BucketAt(l, forever, c.key, c.now), c.now);
  }

  lemma {:induction false} MirrorsRun(l: Limits, calls: seq<Call>, now: real)
    requires l.enabled && FullWhenIdle(l) && NonDecreasing(calls)
    requires forall i :: 0 <= i < |calls| ==> calls[i].now <= now
    ensures Answers(l, map[], calls) == AnswersForever(l, map[], calls)
    ensures Mirrors(l, Run(l, map[], calls), RunForever(l, map[], calls), now)
  {
    if calls != [] {
      var before, c := calls[..|calls| - 1], calls[|calls| - 1];
      MirrorsRun(l, before, c.now);
      var evicting, forever := Run(l, map[], before), RunForever(l, map[], before);
      MirrorsEvict(l, evicting, forever, c.now);
      MirrorsConsume(l, Evict(evicting, c.now), forever, c);
      MirrorsLater(l, Run(l, map[], calls), RunForever(l, map[], calls), c.now, now);
    }
  }

  /** Eviction cannot be observed: where an idle bucket is full before it may go, the limiter answers every run of non-decreasing samples as one that never evicts. */
  lemma EvictionUnobservable(l: Limits, calls: seq<Call>)
    requires l.enabled && FullWhenIdle(l) && NonDecreasing(calls)
    ensures Answers(l, map[], calls) == AnswersForever(l, map[], calls)
  {
    MirrorsRun(l, calls, if calls == [] then 0.0 else calls[|calls| - 1].now);
  }
}
