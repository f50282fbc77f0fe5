/**
 The token bucket against its specification: with samples that never go back, a call is refused exactly
 when allowing it would break the bound of some window that ends with it.
 */
module RateLimiterExact {
  import opened RateLimiter

  /** Allowed calls of the key from the i-th call on. */
  function AllowedFrom(l: Limits, calls: seq<Call>, i: nat, key: Key): nat
    requires i <= |calls|
  {
    Allowed(l, Run(l, map[], calls[..i]), calls[i..], key)
  }

  lemma {:induction false} RunConcat(l: Limits, buckets: Buckets, one: seq<Call>, two: seq<Call>)
    ensures Run(l, buckets, one + two) == Run(l, Run(l, buckets, one), two)
  {
    hide Check;
    if two == [] {
      assert one + two == one;
    } else {
      RunConcat(l, buckets, one, two[..|two| - 1]);
      assert (one + two)[..|one + two| - 1] == one + two[..|two| - 1];
    }
  }

  predicate Taken(l: Limits, calls: seq<Call>, key: Key)
    requires calls != []
  {
    var c := calls[|calls| - 1];
    c.key == key && Check(l, Run(l, map[], calls[..|calls| - 1]), c).1
  }

  lemma AllowedFromStep(l: Limits, calls: seq<Call>, i: nat, key: Key)
    requires i < |calls|
    ensures AllowedFrom(l, calls, i, key) ==
            AllowedFrom(l, calls[..|calls| - 1], i, key) + if Taken(l, calls, key) then 1 else 0
  {
    hide Check;
    var before := calls[..|calls| - 1];
    assert before[..i] == calls[..i] && calls[i..][..|calls| - 1 - i] == before[i..];
    assert calls[..i] + before[i..] == before;
    RunConcat(l, map[], calls[..i], before[i..]);
  }

  predicate Past(buckets: Buckets, now: real) {
    forall key :: key in buckets ==> buckets[key].lastRefill <= now
  }

  lemma {:induction false} PastAlways(l: Limits, calls: seq<Call>, now: real)
    requires NonDecreasing(calls) && forall i :: 0 <= i < |calls| ==> calls[i].now <= now
    ensures Past(Run(l, map[], calls), now)
  {
    if calls != [] {
      PastAlways(l, calls[..|calls| - 1], now);
    }
  }

  /** Levels grow with time up to the burst, and nothing else raises them. */
  lemma LevelGrows(l: Limits, buckets: Buckets, key: Key, earlier: real, now: real)
    requires Past(buckets, earlier) && earlier <= now && Bounded(l, buckets)
    ensures Level(l, buckets, key, now) == Min(l.burst as real, Level(l, buckets, key, earlier) + Gain(l, now - earlier))
  {
    GainGrows(l, 0.0, now - earlier);
    if key in buckets {
      var last := buckets[key].lastRefill;
      GainGrows(l, earlier - last, now - last);
    }
    hide Gain;
  }

  /** The level is what the window from the i-th call leaves of the burst. */
  predicate Leaves(l: Limits, calls: seq<Call>, i: nat, key: Key, now: real, level: real)
    requires i < |calls|
  {
    level == l.burst as real - AllowedFrom(l, calls, i, key) as real + Gain(l, now - calls[i].now)
  }

  /** The call finds the full burst, or exactly what some window ending before it has left. */
  predicate Accounted(l: Limits, calls: seq<Call>, key: Key, now: real, level: real) {
    level == l.burst as real || exists i :: 0 <= i < |calls| && Leaves(l, calls, i, key, now, level)
  }

  lemma LeavesLater(l: Limits, calls: seq<Call>, i: nat, key: Key, now: real, level: real, later: real)
    requires i < |calls| && Leaves(l, calls, i, key, now, level)
    ensures Leaves(l, calls, i, key, later, level + Gain(l, later - now))
  {
    GainSplits(l, now - calls[i].now, later - now, later - calls[i].now);
    hide Gain, AllowedFrom;
  }

  lemma AccountedLater(l: Limits, calls: seq<Call>, key: Key, now: real, level: real, later: real, grown: real)
    requires Accounted(l, calls, key, now, level) && now <= later && level <= l.burst as real
    requires grown == Min(l.burst as real, level + Gain(l, later - now))
    ensures Accounted(l, calls, key, later, grown)
  {
    GainGrows(l, 0.0, later - now);
    hide Gain, Leaves;
    if grown != l.burst as real {
      var i :| 0 <= i < |calls| && Leaves(l, calls, i, key, now, level);
      LeavesLater(l, calls, i, key, now, level, later);
    }
  }

  lemma GainSplits(l: Limits, a: real, b: real, c: real)
    requires c == a + b
    ensures Gain(l, c) == Gain(l, a) + Gain(l, b)
  {
  }

  function TakenBy(l: Limits, calls: seq<Call>, key: Key): real
    requires calls != []
  {
    if Taken(l, calls, key) then 1.0 else 0.0
  }

  /** From a full bucket, the window that starts with the call leaves the burst but the token it takes. */
  lemma FullCall(l: Limits, calls: seq<Call>, key: Key)
    requires calls != []
    ensures Leaves(l, calls, |calls| - 1, key, calls[|calls| - 1].now, l.burst as real - TakenBy(l, calls, key))
  {
    GainSplits(l, 0.0, 0.0, 0.0);
    NothingAfter(l, calls, key);
    hide Gain, Taken, AllowedFrom;
    AllowedFromStep(l, calls, |calls| - 1, key);
  }

  lemma NothingAfter(l: Limits, calls: seq<Call>, key: Key)
    requires calls != []
    ensures AllowedFrom(l, calls[..|calls| - 1], |calls| - 1, key) == 0
  {
    hide Run;
    assert calls[..|calls| - 1][|calls| - 1..] == [];
  }

  lemma LeavesCall(l: Limits, calls: seq<Call>, i: nat, key: Key, level: real)
    requires i < |calls| - 1 && Leaves(l, calls[..|calls| - 1], i, key, calls[|calls| - 1].now, level)
    ensures Leaves(l, calls, i, key, calls[|calls| - 1].now, level - TakenBy(l, calls, key))
  {
    hide Gain, Taken, AllowedFrom;
    AllowedFromStep(l, calls, i, key);
  }

  lemma AccountedCall(l: Limits, calls: seq<Call>, key: Key, level: real)
    requires calls != []
    requires Accounted(l, calls[..|calls| - 1], key, calls[|calls| - 1].now, level)
    ensures Accounted(l, calls, key, calls[|calls| - 1].now, level - TakenBy(l, calls, key))
  {
    hide Taken, Leaves, TakenBy;
    if level == l.burst as real {
      FullCall(l, calls, key);
    } else {
      var i :| 0 <= i < |calls| - 1 && Leaves(l, calls[..|calls| - 1], i, key, calls[|calls| - 1].now, level);
      LeavesCall(l, calls, i, key, level);
    }
  }

  /** What the key finds at a later time is accounted for by the calls so far. */
  lemma {:induction false} LevelAccounted(l: Limits, calls: seq<Call>, key: Key, now: real)
    requires l.enabled && FullWhenIdle(l) && NonDecreasing(calls)
    requires forall i :: 0 <= i < |calls| ==> calls[i].now <= now
    ensures Accounted(l, calls, key, now, Level(l, Run(l, map[], calls), key, now))
  {
    hide Level, Accounted, FullWhenIdle, Check, Bounded, Past, Gain, NonDecreasing;
    if calls == [] {
      NothingSpent(l, key, now);
    } else {
      var n := |calls| - 1;
      var before, c := calls[..n], calls[n];
      PrefixNonDecreasing(calls);
      LevelAccounted(l, before, key, c.now);
      var state := Run(l, map[], before);
      BoundedAlways(l, map[], before) by {
        NoBuckets(l);
      }
      CheckLevel(l, state, c, key);
      AccountedCall(l, calls, key, Level(l, state, key, c.now));
      BoundedAlways(l, map[], calls) by {
        NoBuckets(l);
      }
      PastAlways(l, calls, c.now);
      LevelGrows(l, Run(l, map[], calls), key, c.now, now);
      LevelOverTime(l, Run(l, map[], calls), key, c.now, c.now);
      AccountedLater(l, calls, key, c.now, Level(l, Run(l, map[], calls), key, c.now), now, Level(l, Run(l, map[], calls), key, now));
    }
  }

  lemma NoBuckets(l: Limits)
    ensures Bounded(l, map[])
  {
  }

  lemma NothingSpent(l: Limits, key: Key, now: real)
    ensures Accounted(l, [], key, now, Level(l, Run(l, map[], []), key, now))
  {
  }

  lemma PrefixNonDecreasing(calls: seq<Call>)
    requires NonDecreasing(calls) && calls != []
    ensures NonDecreasing(calls[..|calls| - 1])
    ensures forall i :: 0 <= i < |calls| ==> calls[i].now <= calls[|calls| - 1].now
  {
  }

  lemma SuffixNonDecreasing(calls: seq<Call>, i: nat)
    requires NonDecreasing(calls) && i < |calls|
    ensures NonDecreasing(calls[i..])
  {
  }

  /** Allowing the last call would put more than the bound into the window from the i-th call to it. */
  predicate WouldExceed(l: Limits, calls: seq<Call>, i: nat)
    requires i < |calls|
  {
    var last := calls[|calls| - 1];
    AllowedFrom(l, calls[..|calls| - 1], i, last.key) as real + 1.0 > l.burst as real + Gain(l, last.now - calls[i].now)
  }

  lemma AllowedIffLevel(l: Limits, calls: seq<Call>)
    requires l.enabled && FullWhenIdle(l) && calls != []
    requires Bounded(l, Run(l, map[], calls[..|calls| - 1]))
    ensures var last := calls[|calls| - 1]; var state := Run(l, map[], calls[..|calls| - 1]);
            Check(l, state, last).1 <==> Level(l, state, last.key, last.now) >= 1.0
  {
    var last := calls[|calls| - 1];
    var state := Run(l, map[], calls[..|calls| - 1]);
    EvictKeepsLevel(l, state, last.now, last.key);
    assert Gain(l, 0.0) == 0.0;
    hide Gain, Run;
  }

  /** A call is refused if and only if allowing it would exceed the burst plus the rate times the length of some window ending with it. */
  lemma RefusedIff(l: Limits, calls: seq<Call>)
    requires l.enabled && FullWhenIdle(l) && NonDecreasing(calls) && calls != []
    ensures !Check(l, Run(l, map[], calls[..|calls| - 1]), calls[|calls| - 1]).1 <==> exists i :: 0 <= i < |calls| && WouldExceed(l, calls, i)
  {
    hide Check, FullWhenIdle, Bounded, NonDecreasing, Level, Gain, AllowedFrom;
    var n := |calls| - 1;
    var before, last := calls[..n], calls[n];
    NoBuckets(l);
    BoundedAlways(l, map[], before);
    AllowedIffLevel(l, calls);
    if !Check(l, Run(l, map[], before), last).1 {
      PrefixNonDecreasing(calls);
      LevelAccounted(l, before, last.key, last.now);
      RefusedExceeds(l, calls, Level(l, Run(l, map[], before), last.key, last.now));
    } else {
      forall i | 0 <= i < |calls|
        ensures !WouldExceed(l, calls, i)
      {
        AllowedKeepsBound(l, calls, i);
      }
    }
  }

  lemma LeavesExceeds(l: Limits, calls: seq<Call>, i: nat, level: real)
    requires i < |calls| - 1 && level < 1.0
    requires Leaves(l, calls[..|calls| - 1], i, calls[|calls| - 1].key, calls[|calls| - 1].now, level)
    ensures WouldExceed(l, calls, i)
  {
    hide Gain, AllowedFrom;
  }

  lemma NoBurstExceeds(l: Limits, calls: seq<Call>)
    requires calls != [] && l.burst as real < 1.0
    ensures WouldExceed(l, calls, |calls| - 1)
  {
    GainSplits(l, 0.0, 0.0, 0.0);
    NothingAfter(l, calls, calls[|calls| - 1].key);
    hide Gain, AllowedFrom;
  }

  lemma RefusedExceeds(l: Limits, calls: seq<Call>, level: real)
    requires calls != [] && level < 1.0
    requires Accounted(l, calls[..|calls| - 1], calls[|calls| - 1].key, calls[|calls| - 1].now, level)
    ensures exists i :: 0 <= i < |calls| && WouldExceed(l, calls, i)
  {
    hide Leaves, WouldExceed;
    if level == l.burst as real {
      NoBurstExceeds(l, calls);
    } else {
      var i :| 0 <= i < |calls| - 1 && Leaves(l, calls[..|calls| - 1], i, calls[|calls| - 1].key, calls[|calls| - 1].now, level);
      LeavesExceeds(l, calls, i, level);
    }
  }

  lemma AllowedKeepsBound(l: Limits, calls: seq<Call>, i: nat)
    requires l.enabled && FullWhenIdle(l) && NonDecreasing(calls) && i < |calls|
    requires Check(l, Run(l, map[], calls[..|calls| - 1]), calls[|calls| - 1]).1
    ensures !WouldExceed(l, calls, i)
  {
    hide Check, FullWhenIdle, NonDecreasing, Gain;
    var last := calls[|calls| - 1];
    SuffixNonDecreasing(calls, i);
    WindowBound(l, calls[..i], calls[i..], last.key);
    AllowedFromStep(l, calls, i, last.key);
    assert calls[i..][|calls| - i - 1] == last && calls[i..][0] == calls[i];
  }
}
