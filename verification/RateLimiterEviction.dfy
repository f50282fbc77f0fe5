/**
 When an idle bucket is not full before it may go, eviction hands out tokens: a scope spends its burst,
 ten thousand other scopes appear, and an hour later the scope finds a full bucket again.
 */
module RateLimiterEviction {
  import opened RateLimiter

  const SCOPE: Key := ("scope", "scope")

  function Unary(n: nat): string {
    if n == 0 then "" else Unary(n - 1) + "u"
  }

  function Repeat(now: real, n: nat): seq<Call> {
    if n == 0 then [] else Repeat(now, n - 1) + [Call(SCOPE, now)]
  }

  function Crowd(n: nat): seq<Call> {
    if n == 0 then [] else Crowd(n - 1) + [Call(("", Unary(n)), 0.0)]
  }

  /** The scope's burst at time 0, then `n` other scopes, then `m` more calls an hour later. */
  function Script(l: Limits, n: nat, m: nat): seq<Call> {
    Repeat(0.0, l.burst) + Crowd(n) + Repeat(IDLE_SECONDS, m)
  }

  predicate Leaky(l: Limits) {
    l.enabled && !FullWhenIdle(l)
  }

  function Spent(l: Limits, left: nat, now: real): Buckets {
    map[SCOPE := Bucket(left as real, now)]
  }

  /** The table with the scope's empty bucket and one bucket per other scope. */
  function Packed(l: Limits, n: nat): Buckets
    requires l.burst > 0
  {
    if n == 0 then Spent(l, 0, 0.0) else Packed(l, n - 1)[("", Unary(n)) := Bucket(l.burst as real - 1.0, 0.0)]
  }

  lemma {:induction false} UnaryLength(n: nat)
    ensures |Unary(n)| == n
  {
    if n > 0 {
      UnaryLength(n - 1);
    }
  }

  lemma {:induction false} PackedHolds(l: Limits, n: nat)
    requires l.burst > 0
    ensures |Packed(l, n)| == n + 1
    ensures SCOPE in Packed(l, n) && Packed(l, n)[SCOPE] == Bucket(0.0, 0.0)
    ensures forall key :: key in Packed(l, n) ==> Packed(l, n)[key].lastRefill == 0.0 && (key == SCOPE || (key.0 == "" && |key.1| <= n))
  {
    UnaryLength(n);
    assert SCOPE.0 != "";
    if n == 0 {
      assert Packed(l, 0).Keys == {SCOPE};
      assert |Packed(l, 0)| == |Packed(l, 0).Keys|;
    } else {
      PackedHolds(l, n - 1);
      assert ("", Unary(n)) !in Packed(l, n - 1);
      assert Packed(l, n).Keys == Packed(l, n - 1).Keys + {("", Unary(n))};
      assert |Packed(l, n)| == |Packed(l, n).Keys| && |Packed(l, n - 1)| == |Packed(l, n - 1).Keys|;
    }
  }

  lemma SmallTable(l: Limits, left: nat, at: real, now: real)
    ensures Evict(Spent(l, left, at), now) == Spent(l, left, at)
  {
    var b := Spent(l, left, at);
    assert b.Keys == {SCOPE};
    assert |b| == |b.Keys|;
  }

  lemma SpendOne(l: Limits, left: nat, now: real)
    requires l.enabled && 0 < left <= l.burst
    ensures Check(l, Spent(l, left, now), Call(SCOPE, now)) == (Spent(l, left - 1, now), true)
    ensures Consume(l, Spent(l, left, now), Call(SCOPE, now)) == (Spent(l, left - 1, now), true)
  {
    SmallTable(l, left, now, now);
    assert Gain(l, 0.0) == 0.0;
    hide Gain;
    assert Spent(l, left, now)[SCOPE := Bucket(left as real - 1.0, now)] == Spent(l, left - 1, now);
  }

  lemma FirstOne(l: Limits, now: real)
    requires l.enabled && l.burst > 0
    ensures Check(l, map[], Call(SCOPE, now)) == (Spent(l, l.burst - 1, now), true)
    ensures Consume(l, map[], Call(SCOPE, now)) == (Spent(l, l.burst - 1, now), true)
  {
    assert Gain(l, 0.0) == 0.0;
    hide Gain;
  }

  function AfterDrain(l: Limits, n: nat): Buckets
    requires n <= l.burst
  {
    if n == 0 then map[] else Spent(l, l.burst - n, 0.0)
  }

  lemma OneMore(l: Limits, before: seq<Call>, c: Call)
    ensures Run(l, map[], before + [c]) == Check(l, Run(l, map[], before), c).0
    ensures RunForever(l, map[], before + [c]) == Consume(l, RunForever(l, map[], before), c).0
    ensures Allowed(l, map[], before + [c], SCOPE) ==
            Allowed(l, map[], before, SCOPE) + if c.key == SCOPE && Check(l, Run(l, map[], before), c).1 then 1 else 0
  {
    hide Check, Consume;
    assert (before + [c])[..|before|] == before;
  }

  predicate Drained(l: Limits, n: nat)
    requires n <= l.burst
  {
    && Run(l, map[], Repeat(0.0, n)) == AfterDrain(l, n) == RunForever(l, map[], Repeat(0.0, n))
    && Allowed(l, map[], Repeat(0.0, n), SCOPE) == n
  }

  lemma DrainStep(l: Limits, n: nat)
    requires l.enabled && 0 < n <= l.burst && Drained(l, n - 1)
    ensures Drained(l, n)
  {
    hide Check, Consume, Run, RunForever, Allowed, Spent;
    OneMore(l, Repeat(0.0, n - 1), Call(SCOPE, 0.0));
    FirstOne(l, 0.0);
    if n > 1 {
      SpendOne(l, l.burst - n + 1, 0.0);
    }
  }

  lemma {:induction false} Drains(l: Limits, n: nat)
    requires l.enabled && 0 < l.burst && n <= l.burst
    ensures Drained(l, n)
  {
    if n > 0 {
      hide Drained;
      Drains(l, n - 1);
      DrainStep(l, n);
    } else {
      NothingDrained(l);
    }
  }

  lemma NothingDrained(l: Limits)
    ensures Drained(l, 0)
  {
  }

  /** Another scope's first call. */
  lemma NewScope(l: Limits, buckets: Buckets, key: Key)
    requires l.enabled && 0 < l.burst && key !in buckets && Evict(buckets, 0.0) == buckets
    ensures Check(l, buckets, Call(key, 0.0)).0 == buckets[key := Bucket(l.burst as real - 1.0, 0.0)] == Consume(l, buckets, Call(key, 0.0)).0
  {
    assert Gain(l, 0.0) == 0.0;
    hide Gain, Evict;
  }

  predicate Crowded(l: Limits, n: nat)
    requires 0 < l.burst
  {
    && Run(l, map[], Repeat(0.0, l.burst) + Crowd(n)) == Packed(l, n) == RunForever(l, map[], Repeat(0.0, l.burst) + Crowd(n))
    && Allowed(l, map[], Repeat(0.0, l.burst) + Crowd(n), SCOPE) == l.burst
  }

  lemma CrowdStep(l: Limits, n: nat)
    requires l.enabled && 0 < l.burst && 0 < n <= MAX_BUCKETS && Crowded(l, n - 1)
    ensures Crowded(l, n)
  {
    hide Check, Consume, Run, RunForever, Allowed, Packed;
    var before, c := Repeat(0.0, l.burst) + Crowd(n - 1), Call(("", Unary(n)), 0.0);
    assert Repeat(0.0, l.burst) + Crowd(n) == before + [c];
    PackedHolds(l, n - 1);
    UnaryLength(n);
    assert c.key.0 != SCOPE.0;
    PackedStep(l, n);
    OneMore(l, before, c);
    assert Evict(Packed(l, n - 1), 0.0) == Packed(l, n - 1);
    NewScope(l, Packed(l, n - 1), c.key);
  }

  /** The crowd fills the table and leaves the scope's bucket alone, with or without eviction. */
  lemma {:induction false} Crowds(l: Limits, n: nat)
    requires l.enabled && 0 < l.burst && n <= MAX_BUCKETS
    ensures Crowded(l, n)
  {
    if n == 0 {
      hide Run, RunForever, Allowed;
      Drains(l, l.burst);
      assert Repeat(0.0, l.burst) + Crowd(0) == Repeat(0.0, l.burst);
    } else {
      hide Crowded;
      Crowds(l, n - 1);
      CrowdStep(l, n);
    }
  }

  lemma PackedStep(l: Limits, n: nat)
    requires l.burst > 0 && n > 0
    ensures Packed(l, n) == Packed(l, n - 1)[("", Unary(n)) := Bucket(l.burst as real - 1.0, 0.0)]
  {
  }

  lemma EverythingEvicted(l: Limits)
    requires l.enabled && 0 < l.burst
    ensures Check(l, Packed(l, MAX_BUCKETS), Call(SCOPE, IDLE_SECONDS)) == (Spent(l, l.burst - 1, IDLE_SECONDS), true)
  {
    PackedHolds(l, MAX_BUCKETS);
    hide Packed, Consume;
    assert Evict(Packed(l, MAX_BUCKETS), IDLE_SECONDS) == map[];
    FirstOne(l, IDLE_SECONDS);
  }

  /** An hour later the evicting limiter allows a whole burst again. */
  lemma {:induction false} BurstsAgain(l: Limits, m: nat)
    requires l.enabled && 0 < m <= l.burst
    ensures Run(l, map[], Script(l, MAX_BUCKETS, m)) == Spent(l, l.burst - m, IDLE_SECONDS)
    ensures Allowed(l, map[], Script(l, MAX_BUCKETS, m), SCOPE) == l.burst + m
    ensures var calls := Script(l, MAX_BUCKETS, m);
            calls[|calls| - 1] == Call(SCOPE, IDLE_SECONDS) && Check(l, Run(l, map[], calls[..|calls| - 1]), calls[|calls| - 1]).1
  {
    var calls := Script(l, MAX_BUCKETS, m);
    hide Check, Packed, Crowd;
    assert calls[..|calls| - 1] == Script(l, MAX_BUCKETS, m - 1);
    if m == 1 {
      Crowds(l, MAX_BUCKETS);
      assert Script(l, MAX_BUCKETS, 0) == Repeat(0.0, l.burst) + Crowd(MAX_BUCKETS);
      EverythingEvicted(l);
    } else {
      BurstsAgain(l, m - 1);
      SpendOne(l, l.burst - m + 1, IDLE_SECONDS);
    }
  }

  lemma RefillAnHour(l: Limits, buckets: Buckets)
    requires Leaky(l) && SCOPE in buckets && buckets[SCOPE] == Bucket(0.0, 0.0)
    ensures Refilled(l, buckets[SCOPE], IDLE_SECONDS) == (3600 * l.rps) as real
  {
    assert (3600 * l.rps) as real == 3600.0 * l.rps as real;
  }

  /** The limiter that never evicts has refilled less than a burst. */
  lemma {:induction false} RunsDry(l: Limits, m: nat)
    requires Leaky(l) && 0 < m <= 3600 * l.rps
    ensures var state := RunForever(l, map[], Script(l, MAX_BUCKETS, m));
            SCOPE in state && state[SCOPE] == Bucket((3600 * l.rps - m) as real, IDLE_SECONDS)
  {
    var calls := Script(l, MAX_BUCKETS, m);
    hide Packed, Crowd;
    assert calls[..|calls| - 1] == Script(l, MAX_BUCKETS, m - 1);
    if m == 1 {
      Crowds(l, MAX_BUCKETS);
      assert Script(l, MAX_BUCKETS, 0) == Repeat(0.0, l.burst) + Crowd(MAX_BUCKETS);
      PackedHolds(l, MAX_BUCKETS);
      RefillAnHour(l, Packed(l, MAX_BUCKETS));
    } else {
      RunsDry(l, m - 1);
      assert Gain(l, 0.0) == 0.0;
    }
  }

  lemma DryRefuses(l: Limits)
    requires Leaky(l)
    ensures !Consume(l, RunForever(l, map[], Script(l, MAX_BUCKETS, 3600 * l.rps)), Call(SCOPE, IDLE_SECONDS)).1
  {
    hide Packed, Crowd;
    if l.rps > 0 {
      RunsDry(l, 3600 * l.rps);
      assert Gain(l, 0.0) == 0.0;
    } else {
      Crowds(l, MAX_BUCKETS);
      assert Script(l, MAX_BUCKETS, 0) == Repeat(0.0, l.burst) + Crowd(MAX_BUCKETS);
      PackedHolds(l, MAX_BUCKETS);
      RefillAnHour(l, Packed(l, MAX_BUCKETS));
    }
  }

  lemma {:induction false} RepeatNow(now: real, n: nat)
    ensures |Repeat(now, n)| == n && forall i :: 0 <= i < n ==> Repeat(now, n)[i] == Call(SCOPE, now)
  {
    if n > 0 {
      RepeatNow(now, n - 1);
    }
  }

  lemma {:induction false} CrowdNow(n: nat)
    ensures |Crowd(n)| == n && forall i :: 0 <= i < n ==> Crowd(n)[i].now == 0.0
  {
    if n > 0 {
      CrowdNow(n - 1);
    }
  }

  lemma ScriptNonDecreasing(l: Limits, n: nat, m: nat)
    ensures NonDecreasing(Script(l, n, m))
    ensures m > 0 && l.burst > 0 ==> Script(l, n, m)[0].now == 0.0 && Script(l, n, m)[|Script(l, n, m)| - 1].now == IDLE_SECONDS
  {
    RepeatNow(0.0, l.burst);
    CrowdNow(n);
    RepeatNow(IDLE_SECONDS, m);
  }

  /** The window bound needs the condition: without it, two bursts pass in one hour. */
  lemma WindowBoundBroken(l: Limits)
    requires Leaky(l)
    ensures var calls := Script(l, MAX_BUCKETS, l.burst);
            && NonDecreasing(calls) && calls[|calls| - 1].now - calls[0].now == 3600.0
            && Allowed(l, map[], calls, SCOPE) as real > l.burst as real + Gain(l, 3600.0)
  {
    ScriptNonDecreasing(l, MAX_BUCKETS, l.burst);
    BurstsAgain(l, l.burst);
    assert (3600 * l.rps) as real == 3600.0 * l.rps as real;
  }

  lemma LastAnswers(l: Limits, calls: seq<Call>)
    requires calls != []
    ensures |Answers(l, map[], calls)| == |AnswersForever(l, map[], calls)| == |calls|
    ensures Answers(l, map[], calls)[|calls| - 1] == Check(l, Run(l, map[], calls[..|calls| - 1]), calls[|calls| - 1]).1
    ensures AnswersForever(l, map[], calls)[|calls| - 1] == Consume(l, RunForever(l, map[], calls[..|calls| - 1]), calls[|calls| - 1]).1
  {
    AnswersLength(l, calls[..|calls| - 1]);
  }

  lemma {:induction false} AnswersLength(l: Limits, calls: seq<Call>)
    ensures |Answers(l, map[], calls)| == |AnswersForever(l, map[], calls)| == |calls|
  {
    if calls != [] {
      AnswersLength(l, calls[..|calls| - 1]);
    }
  }

  ghost predicate EvictionUnseen(l: Limits) {
    forall calls :: NonDecreasing(calls) ==> Answers(l, map[], calls) == AnswersForever(l, map[], calls)
  }

  /** Eviction is unobservable over all runs of non-decreasing samples if and only if an idle bucket refills within the hour. */
  lemma EvictionUnseenIff(l: Limits)
    requires l.enabled
    ensures EvictionUnseen(l) <==> FullWhenIdle(l)
  {
    if FullWhenIdle(l) {
      forall calls | NonDecreasing(calls)
        ensures Answers(l, map[], calls) == AnswersForever(l, map[], calls)
      {
        EvictionUnobservable(l, calls);
      }
    } else {
      hide Script, Answers, AnswersForever, NonDecreasing, Check, Consume;
      var m := 3600 * l.rps + 1;
      var calls := Script(l, MAX_BUCKETS, m);
      ScriptNonDecreasing(l, MAX_BUCKETS, m);
      BurstsAgain(l, m);
      ScriptStep(l, m);
      DryRefuses(l);
      LastAnswers(l, calls);
    }
  }

  lemma ScriptStep(l: Limits, m: nat)
    requires m > 0
    ensures Script(l, MAX_BUCKETS, m) != []
    ensures Script(l, MAX_BUCKETS, m)[..|Script(l, MAX_BUCKETS, m)| - 1] == Script(l, MAX_BUCKETS, m - 1)
    ensures Script(l, MAX_BUCKETS, m)[|Script(l, MAX_BUCKETS, m)| - 1] == Call(SCOPE, IDLE_SECONDS)
  {
    hide Crowd;
    var calls := Script(l, MAX_BUCKETS, m);
    assert calls[..|calls| - 1] == Script(l, MAX_BUCKETS, m - 1);
  }

  /** Every window of every run of non-decreasing samples keeps to the burst plus the rate times its length. */
  ghost predicate WindowsBounded(l: Limits) {
    forall past: seq<Call>, window: seq<Call>, key: Key :: window != [] && NonDecreasing(past + window) ==>
      Allowed(l, Run(l, map[], past), window, key) as real <= l.burst as real + Gain(l, window[|window| - 1].now - window[0].now)
  }

  /** The window bound holds if and only if an idle bucket refills within the hour. */
  lemma WindowBoundIff(l: Limits)
    requires l.enabled
    ensures WindowsBounded(l) <==> FullWhenIdle(l)
  {
    hide Gain, Script, Allowed, FullWhenIdle;
    if FullWhenIdle(l) {
      forall past: seq<Call>, window: seq<Call>, key: Key | window != [] && NonDecreasing(past + window)
        ensures Allowed(l, Run(l, map[], past), window, key) as real <= l.burst as real + Gain(l, window[|window| - 1].now - window[0].now)
      {
        assert NonDecreasing(window) by {
          Suffix(past, window);
        }
        WindowBound(l, past, window, key);
      }
    } else {
      WindowBoundBroken(l);
      var calls := Script(l, MAX_BUCKETS, l.burst);
      assert [] + calls == calls;
      assert Run(l, map[], []) == map[];
      ScriptNonEmpty(l, MAX_BUCKETS);
      assert NonDecreasing([] + calls);
      assert Allowed(l, Run(l, map[], []), calls, SCOPE) == Allowed(l, map[], calls, SCOPE);
    }
  }

  lemma ScriptNonEmpty(l: Limits, n: nat)
    requires Leaky(l)
    ensures Script(l, n, l.burst) != []
  {
    RepeatNow(0.0, l.burst);
  }

  lemma Suffix(past: seq<Call>, window: seq<Call>)
    requires NonDecreasing(past + window)
    ensures NonDecreasing(window)
  {
    forall i, j | 0 <= i < j < |window|
      ensures window[i].now <= window[j].now
    {
      assert (past + window)[|past| + i] == window[i] && (past + window)[|past| + j] == window[j];
    }
  }
}
