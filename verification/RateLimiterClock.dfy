/**
 How far samples may go back in lock order before windows allow too much: not at all. A scope spends
 its burst, and every sample that goes back and forth again accrues tokens without time passing.
 */
module RateLimiterClock {
  import opened RateLimiter
  import opened RateLimiterEviction

  /** Every sample lags the greatest one before it by at most `d` seconds. */
  predicate Lagging(calls: seq<Call>, d: real) {
    forall i, j :: 0 <= i < j < |calls| ==> calls[i].now - calls[j].now <= d
  }

  /** The samples lie within `w` seconds of each other. */
  predicate Within(calls: seq<Call>, w: real) {
    forall i, j :: 0 <= i < |calls| && 0 <= j < |calls| ==> calls[i].now - calls[j].now <= w
  }

  /** Over all runs whose samples lag by at most `d`, a window whose samples lie within `w` seconds allows at most the burst and what accrues in them. */
  ghost predicate WindowsKept(l: Limits, d: real) {
    forall past: seq<Call>, window: seq<Call>, key: Key, w: real :: window != [] && Lagging(past + window, d) && Within(window, w) ==>
      Allowed(l, Run(l, map[], past), window, key) as real <= l.burst as real + Gain(l, w)
  }

  function Share(k: nat, g: real): real {
    k as real * g
  }

  /** `n` swings of the clock by `e` seconds accrue exactly one token. */
  predicate Tuned(l: Limits, e: real, n: nat) {
    0.0 < e && 2 <= n && Share(n, Gain(l, e)) == 1.0
  }

  lemma Times(a: real, b: real, c: real)
    requires a <= b && 0.0 <= c
    ensures a * c <= b * c && c * a <= c * b
  {
  }

  lemma Tuning(l: Limits, d: real) returns (e: real, n: nat)
    requires l.rps > 0 && d > 0.0
    ensures Tuned(l, e, n) && e <= d
  {
    var rate := l.rps as real;
    assert rate * d > 0.0;
    var cycles := 1.0 / (rate * d);
    n := cycles.Floor + 2;
    var many := rate * n as real;
    assert many > 0.0;
    e := 1.0 / many;
    assert Share(n, Gain(l, e)) == e * many == 1.0;
    Times(cycles, n as real, rate * d);
    assert d * many == n as real * (rate * d) >= 1.0;
    if e > d {
      Strictly(d, e, many);
    }
  }

  lemma Strictly(a: real, b: real, c: real)
    requires a < b && 0.0 < c
    ensures a * c < b * c
  {
  }

  function Swing(e: real, k: nat): seq<Call> {
    if k == 0 then [] else Swing(e, k - 1) + [Call(SCOPE, -e), Call(SCOPE, 0.0)]
  }

  /** The burst at time 0, then `k` swings. */
  function Swung(l: Limits, e: real, k: nat): seq<Call> {
    Repeat(0.0, l.burst) + Swing(e, k)
  }

  function Holding(tokens: real, at: real): Buckets {
    map[SCOPE := Bucket(tokens, at)]
  }

  lemma HoldingStays(tokens: real, at: real, now: real)
    ensures Evict(Holding(tokens, at), now) == Holding(tokens, at)
  {
    assert Holding(tokens, at).Keys == {SCOPE};
    assert |Holding(tokens, at)| == |Holding(tokens, at).Keys|;
  }

  /** Going back: nothing accrues, and the bucket forgets how far it had come. */
  lemma GoBack(l: Limits, e: real, tokens: real)
    requires l.enabled && 0.0 < e && 0.0 <= tokens < 1.0 <= l.burst as real
    ensures Check(l, Holding(tokens, 0.0), Call(SCOPE, -e)) == (Holding(tokens, -e), false)
  {
    HoldingStays(tokens, 0.0, -e);
    assert Gain(l, 0.0) == 0.0;
    hide Gain;
    assert Holding(tokens, 0.0)[SCOPE := Bucket(tokens, -e)] == Holding(tokens, -e);
  }

  lemma GoForth(l: Limits, e: real, tokens: real)
    requires l.enabled && 0.0 < e && 0.0 <= tokens && tokens + Gain(l, e) <= 1.0 <= l.burst as real
    ensures var filled := tokens + Gain(l, e);
            Check(l, Holding(tokens, -e), Call(SCOPE, 0.0)) == (Holding(if filled >= 1.0 then filled - 1.0 else filled, 0.0), filled >= 1.0)
  {
    HoldingStays(tokens, -e, 0.0);
    hide Gain;
    assert Holding(tokens, -e)[SCOPE := Bucket(if tokens + Gain(l, e) >= 1.0 then tokens + Gain(l, e) - 1.0 else tokens + Gain(l, e), 0.0)]
        == Holding(if tokens + Gain(l, e) >= 1.0 then tokens + Gain(l, e) - 1.0 else tokens + Gain(l, e), 0.0);
  }

  function TokensAfter(l: Limits, e: real, n: nat, k: nat): real {
    if k < n then Share(k, Gain(l, e)) else 0.0
  }

  lemma NextShare(k: nat, g: real)
    ensures Share(k + 1, g) == Share(k, g) + g && Share(0, g) == 0.0
  {
  }

  lemma NotPositive(c: real, g: real)
    requires 0.0 <= c && g <= 0.0
    ensures c * g <= 0.0
  {
  }

  lemma LessShare(j: nat, k: nat, g: real)
    requires j < k
    ensures 0.0 < g ==> Share(j, g) < Share(k, g)
    ensures g <= 0.0 ==> Share(k, g) <= 0.0
  {
    if 0.0 < g {
      Strictly(j as real, k as real, g);
    } else {
      NotPositive(k as real, g);
    }
  }

  /** Parts of a token. */
  lemma Parts(n: nat, g: real, k: nat)
    requires 2 <= n && Share(n, g) == 1.0 && k < n
    ensures 0.0 < g < 1.0 && 0.0 <= Share(k, g) < 1.0 && Share(k + 1, g) == Share(k, g) + g
    ensures if k + 1 < n then Share(k + 1, g) < 1.0 else Share(k + 1, g) == 1.0
  {
    hide Share;
    LessShare(0, n, g);
    LessShare(1, n, g);
    NextShare(0, g);
    LessShare(k, n, g);
    NextShare(k, g);
    if k > 0 {
      LessShare(0, k, g);
    }
    if k + 1 < n {
      LessShare(k + 1, n, g);
    }
  }

  lemma OneSwing(l: Limits, e: real, n: nat, k: nat)
    requires l.enabled && l.burst > 0 && Tuned(l, e, n) && k < n
    ensures var back := Check(l, Holding(TokensAfter(l, e, n, k), 0.0), Call(SCOPE, -e));
            var forth := Check(l, back.0, Call(SCOPE, 0.0));
            !back.1 && forth == (Holding(TokensAfter(l, e, n, k + 1), 0.0), k + 1 == n)
  {
    hide Gain, Check, Share;
    var g := Gain(l, e);
    Parts(n, g, k);
    GoBack(l, e, Share(k, g));
    GoForth(l, e, Share(k, g));
  }

  predicate SwungTo(l: Limits, e: real, n: nat, k: nat) {
    && Run(l, map[], Swung(l, e, k)) == Holding(TokensAfter(l, e, n, k), 0.0)
    && Allowed(l, map[], Swung(l, e, k), SCOPE) == l.burst + if k == n then 1 else 0
  }

  lemma SwingStep(l: Limits, e: real, n: nat, k: nat)
    requires l.enabled && l.burst > 0 && Tuned(l, e, n) && 0 < k <= n && SwungTo(l, e, n, k - 1)
    ensures SwungTo(l, e, n, k)
  {
    hide Check, Consume, TokensAfter, Gain, Run, Allowed, Holding, Repeat, Tuned;
    OneSwing(l, e, n, k - 1);
    var before, back := Swung(l, e, k - 1), Call(SCOPE, -e);
    OneMore(l, before, back);
    OneMore(l, before + [back], Call(SCOPE, 0.0));
    assert Swung(l, e, k) == before + [back] + [Call(SCOPE, 0.0)];
  }

  /** The burst is spent at once, and after `n` swings one more call passes. */
  lemma {:induction false} Swings(l: Limits, e: real, n: nat, k: nat)
    requires l.enabled && l.burst > 0 && Tuned(l, e, n) && k <= n
    ensures SwungTo(l, e, n, k)
  {
    if k == 0 {
      Drains(l, l.burst);
      assert Swung(l, e, 0) == Repeat(0.0, l.burst);
      NoTokens(l, e, n);
    } else {
      Swings(l, e, n, k - 1);
      SwingStep(l, e, n, k);
    }
    hide Check, Consume, TokensAfter, Gain, Run, Allowed, RunForever, Repeat, Swung, SwungTo;
  }

  lemma NoTokens(l: Limits, e: real, n: nat)
    requires Tuned(l, e, n)
    ensures TokensAfter(l, e, n, 0) == 0.0
    ensures AfterDrain(l, l.burst) == Holding(0.0, 0.0) || l.burst == 0
  {
  }

  lemma {:induction false} SwingNow(e: real, k: nat)
    ensures forall i :: 0 <= i < |Swing(e, k)| ==> Swing(e, k)[i].now == 0.0 || Swing(e, k)[i].now == -e
  {
    if k > 0 {
      SwingNow(e, k - 1);
    }
  }

  /** All samples of the run lie within one swing, so it is a window that allows too much. */
  lemma SwungBreaks(l: Limits, e: real, n: nat, d: real)
    requires l.enabled && l.burst > 0 && Tuned(l, e, n) && e <= d
    ensures Swung(l, e, n) != [] && Lagging(Swung(l, e, n), d) && Within(Swung(l, e, n), e)
    ensures Allowed(l, map[], Swung(l, e, n), SCOPE) as real > l.burst as real + Gain(l, e)
  {
    RepeatNow(0.0, l.burst);
    SwingNow(e, n);
    Swings(l, e, n, n);
    Parts(n, Gain(l, e), 0);
    hide Gain, Run, Allowed, Swing, Repeat;
  }

  /** With a burst of zero nothing is ever allowed. */
  lemma {:induction false} NothingAllowed(l: Limits, buckets: Buckets, calls: seq<Call>, key: Key)
    requires l.enabled && l.burst == 0
    ensures Allowed(l, buckets, calls, key) == 0
  {
    if calls != [] {
      NothingAllowed(l, buckets, calls[..|calls| - 1], key);
    }
  }

  lemma OnTheClock(l: Limits, past: seq<Call>, window: seq<Call>, key: Key, w: real)
    requires l.enabled && FullWhenIdle(l) && window != [] && Lagging(past + window, 0.0) && Within(window, w)
    ensures Allowed(l, Run(l, map[], past), window, key) as real <= l.burst as real + Gain(l, w)
  {
    hide Gain, Allowed, Run, FullWhenIdle;
    assert NonDecreasing(past + window);
    Suffix(past, window);
    WindowBound(l, past, window, key);
    GainGrows(l, window[|window| - 1].now - window[0].now, w);
  }

  lemma NothingPasses(l: Limits, past: seq<Call>, window: seq<Call>, key: Key, w: real)
    requires l.enabled && l.burst == 0 && window != [] && Within(window, w)
    ensures Allowed(l, Run(l, map[], past), window, key) as real <= l.burst as real + Gain(l, w)
  {
    NothingAllowed(l, Run(l, map[], past), window, key);
    assert window[0].now - window[0].now <= w;
    GainGrows(l, 0.0, w);
  }

  /** A window that breaks the bound at the start of a run. */
  lemma Broken(l: Limits, d: real, window: seq<Call>, w: real)
    requires window != [] && Lagging(window, d) && Within(window, w)
    requires Allowed(l, map[], window, SCOPE) as real > l.burst as real + Gain(l, w)
    ensures !WindowsKept(l, d)
  {
    assert [] + window == window && Run(l, map[], []) == map[];
    assert Lagging([] + window, d) && Allowed(l, Run(l, map[], []), window, SCOPE) == Allowed(l, map[], window, SCOPE);
    hide Lagging, Within, Allowed, Gain;
  }

  /**
   Windows keep their bound if and only if an idle bucket refills within the hour and samples never go
   back in lock order; with a lag of any size more passes, unless nothing passes at all.
   */
  lemma WindowsKeptIff(l: Limits, d: real)
    requires l.enabled && d >= 0.0
    ensures WindowsKept(l, d) <==> FullWhenIdle(l) && (d == 0.0 || l.burst == 0)
  {
    hide Gain, Allowed, Run, Lagging, Within, Script, FullWhenIdle;
    if !FullWhenIdle(l) {
      ScriptWindow(l, d);
      WindowBoundBroken(l);
      Broken(l, d, Script(l, MAX_BUCKETS, l.burst), 3600.0);
    } else if l.burst == 0 {
      forall past: seq<Call>, window: seq<Call>, key: Key, w: real | window != [] && Lagging(past + window, d) && Within(window, w)
        ensures Allowed(l, Run(l, map[], past), window, key) as real <= l.burst as real + Gain(l, w)
      {
        NothingPasses(l, past, window, key, w);
      }
    } else if d == 0.0 {
      forall past: seq<Call>, window: seq<Call>, key: Key, w: real | window != [] && Lagging(past + window, d) && Within(window, w)
        ensures Allowed(l, Run(l, map[], past), window, key) as real <= l.burst as real + Gain(l, w)
      {
        OnTheClock(l, past, window, key, w);
      }
    } else {
      RateIsPositive(l);
      var e, n := Tuning(l, d);
      SwungBreaks(l, e, n, d);
      Broken(l, d, Swung(l, e, n), e);
    }
  }

  lemma RateIsPositive(l: Limits)
    requires FullWhenIdle(l) && l.burst > 0
    ensures l.rps > 0
  {
  }

  lemma ScriptWindow(l: Limits, d: real)
    requires Leaky(l) && d >= 0.0
    ensures var calls := Script(l, MAX_BUCKETS, l.burst); calls != [] && Lagging(calls, d) && Within(calls, 3600.0)
  {
    ScriptNonEmpty(l, MAX_BUCKETS);
    RepeatNow(0.0, l.burst);
    CrowdNow(MAX_BUCKETS);
    RepeatNow(IDLE_SECONDS, l.burst);
    ScriptNonDecreasing(l, MAX_BUCKETS, l.burst);
  }
}
