/**
 The receipts a forget keeps: for every store and operation the last one that came in, none dropped and
 none made up; and a forget completes exactly when all of these acknowledge.
 */
module ForgetReceipts {
  import opened Wrappers
  import opened UserLease
  import opened Attempts
  import opened ForgetIntent
  import opened ForgetRuns
  import F = Forget

  predicate SameStore(a: F.Receipt, b: F.Receipt) {
    a.backend == b.backend && a.operation == b.operation
  }

  /** A receipt of the same store and operation comes in. */
  predicate Superseded(r: F.Receipt, incoming: seq<F.Receipt>) {
    exists i :: 0 <= i < |incoming| && SameStore(incoming[i], r)
  }

  /** No later one of the same store and operation comes in. */
  predicate Latest(incoming: seq<F.Receipt>, i: nat)
    requires i < |incoming|
  {
    forall j :: i < j < |incoming| ==> !SameStore(incoming[j], incoming[i])
  }

  /** What is to be kept: earlier receipts of stores that do not come in, and the last one of each that does. */
  predicate Current(earlier: seq<F.Receipt>, incoming: seq<F.Receipt>, r: F.Receipt) {
    || (r in earlier && !Superseded(r, incoming))
    || exists i :: 0 <= i < |incoming| && Latest(incoming, i) && incoming[i] == r
  }

  predicate OncePerStore(receipts: seq<F.Receipt>) {
    forall i, j :: 0 <= i < j < |receipts| ==> !SameStore(receipts[i], receipts[j])
  }

  /** Stores keep their places in the list. */
  predicate SamePlaces(earlier: seq<F.Receipt>, receipts: seq<F.Receipt>) {
    |earlier| <= |receipts| && forall i :: 0 <= i < |earlier| ==> SameStore(earlier[i], receipts[i])
  }

  // ---- One receipt ----

  lemma {:induction false} OneMerged(receipts: seq<F.Receipt>, receipt: F.Receipt)
    requires OncePerStore(receipts)
    ensures var merged := F.MergeReceipt(receipts, receipt);
            && OncePerStore(merged) && SamePlaces(receipts, merged) && merged != []
            && forall r :: r in merged <==> (r in receipts && !SameStore(r, receipt)) || r == receipt
  {
    if receipts != [] && !SameStore(receipts[0], receipt) {
      var rest := receipts[1..];
      OneMerged(rest, receipt);
      var merged := F.MergeReceipt(rest, receipt);
      assert F.MergeReceipt(receipts, receipt) == [receipts[0]] + merged;
      forall j | 0 <= j < |merged|
        ensures !SameStore(receipts[0], merged[j])
      {
        assert merged[j] in merged;
        if merged[j] in rest {
          var k :| 0 <= k < |rest| && rest[k] == merged[j];
          assert receipts[k + 1] == rest[k];
        }
      }
      forall r
        ensures r in [receipts[0]] + merged <==> (r in receipts && !SameStore(r, receipt)) || r == receipt
      {
        assert r in receipts <==> r == receipts[0] || r in rest;
      }
    } else if receipts != [] {
      assert forall r :: r in [receipt] + receipts[1..] <==> r == receipt || r in receipts[1..];
      forall r | r in receipts[1..]
        ensures !SameStore(r, receipt)
      {
        var k :| 0 <= k < |receipts| - 1 && receipts[1..][k] == r;
        assert receipts[k + 1] == r && !SameStore(receipts[0], receipts[k + 1]);
      }
    }
  }

  lemma SupersededFirst(r: F.Receipt, incoming: seq<F.Receipt>)
    requires incoming != []
    ensures Superseded(r, incoming) <==> SameStore(incoming[0], r) || Superseded(r, incoming[1..])
  {
    if Superseded(r, incoming) && !SameStore(incoming[0], r) {
      var i :| 0 <= i < |incoming| && SameStore(incoming[i], r);
      assert incoming[1..][i - 1] == incoming[i];
    }
    if Superseded(r, incoming[1..]) {
      var i :| 0 <= i < |incoming| - 1 && SameStore(incoming[1..][i], r);
      assert incoming[i + 1] == incoming[1..][i];
    }
  }

  lemma LatestFirst(incoming: seq<F.Receipt>, r: F.Receipt)
    requires incoming != []
    ensures (exists i :: 0 <= i < |incoming| && Latest(incoming, i) && incoming[i] == r) <==>
            || (r == incoming[0] && !Superseded(r, incoming[1..]))
            || exists i :: 0 <= i < |incoming| - 1 && Latest(incoming[1..], i) && incoming[1..][i] == r
  {
    var rest := incoming[1..];
    if i :| 0 <= i < |incoming| && Latest(incoming, i) && incoming[i] == r {
      if i == 0 {
        assert forall j :: 0 <= j < |rest| ==> rest[j] == incoming[j + 1];
      } else {
        assert rest[i - 1] == incoming[i] && Latest(rest, i - 1);
      }
    }
    if r == incoming[0] && !Superseded(r, rest) {
      forall j | 0 < j < |incoming|
        ensures !SameStore(incoming[j], incoming[0])
      {
        assert rest[j - 1] == incoming[j];
      }
      assert Latest(incoming, 0);
    }
    if i :| 0 <= i < |rest| && Latest(rest, i) && rest[i] == r {
      forall j | i + 1 < j < |incoming|
        ensures !SameStore(incoming[j], incoming[i + 1])
      {
        assert rest[j - 1] == incoming[j];
      }
      assert Latest(incoming, i + 1) && incoming[i + 1] == r;
    }
  }

  lemma CurrentFirst(earlier: seq<F.Receipt>, incoming: seq<F.Receipt>, merged: seq<F.Receipt>, r: F.Receipt)
    requires incoming != []
    requires r in merged <==> (r in earlier && !SameStore(r, incoming[0])) || r == incoming[0]
    ensures Current(earlier, incoming, r) <==> Current(merged, incoming[1..], r)
  {
    SupersededFirst(r, incoming);
    LatestFirst(incoming, r);
    hide Superseded, Latest;
  }

  lemma {:induction false} AllMerged(receipts: seq<F.Receipt>, incoming: seq<F.Receipt>)
    requires OncePerStore(receipts)
    ensures var merged := F.MergeReceipts(receipts, incoming);
            && OncePerStore(merged) && SamePlaces(receipts, merged) && (merged != [] <==> receipts != [] || incoming != [])
            && forall r :: r in merged <==> Current(receipts, incoming, r)
    decreases |incoming|
  {
    hide OncePerStore;
    if incoming != [] {
      var first := F.MergeReceipt(receipts, incoming[0]);
      OneMerged(receipts, incoming[0]);
      AllMerged(first, incoming[1..]);
      forall r
        ensures Current(receipts, incoming, r) <==> Current(first, incoming[1..], r)
      {
        CurrentFirst(receipts, incoming, first, r);
      }
    }
    hide Current;
  }

  // ---- What settling keeps, and when it completes ----

  /** The checkpoint has exactly the current receipts, in their places, and is completed if they all acknowledge. */
  ghost predicate Keeps(c: F.Checkpoint, incoming: seq<F.Receipt>, c': F.Checkpoint) {
    && OncePerStore(c'.receipts) && SamePlaces(c.receipts, c'.receipts)
    && (forall r :: r in c'.receipts <==> Current(c.receipts, incoming, r))
    && (c'.completed <==> c.completed || ((c.receipts != [] || incoming != []) && forall r :: Current(c.receipts, incoming, r) ==> r.acknowledged))
    && (c'.lastError.None? <==> ((c.receipts != [] || incoming != []) && forall r :: Current(c.receipts, incoming, r) ==> r.acknowledged))
    && c'.transition == c.transition && c'.redaction == c.redaction && c'.attempts == c.attempts
  }

  /** Receipts that come in are all kept, each store's last, beside those of stores that do not; a failure keeps what there was. */
  lemma SettledMeans(c: F.Checkpoint, outcome: Result<seq<F.Receipt>, string>)
    requires OncePerStore(c.receipts)
    ensures outcome.Success? ==> Keeps(c, outcome.value, F.Settled(c, outcome))
    ensures outcome.Failure? ==> F.Settled(c, outcome) == c.(lastError := Some(outcome.error))
  {
    hide OncePerStore, SamePlaces, Current;
    if outcome.Success? {
      var receipts := F.Settled(c, outcome).receipts;
      AllMerged(c.receipts, outcome.value);
      if F.AllAcknowledged(receipts) {
        forall r | Current(c.receipts, outcome.value, r)
          ensures r.acknowledged
        {
          var i :| 0 <= i < |receipts| && receipts[i] == r;
        }
      }
      if receipts != [] && forall r :: Current(c.receipts, outcome.value, r) ==> r.acknowledged {
        assert forall i :: 0 <= i < |receipts| ==> receipts[i] in receipts;
      }
    }
    hide F.MergeReceipts;
  }

  // ---- Over every run ----

  predicate OnceIn(phase: F.Phase) {
    match phase
    case Loading(_, existing) => existing.Some? ==> OncePerStore(existing.value.receipts)
    case Deciding(_, existing, _) => existing.Some? ==> OncePerStore(existing.value.receipts)
    case Intending(_, _, c) => OncePerStore(c.receipts)
    case Marking(_, _, c, _) => OncePerStore(c.receipts)
    case Updating(_, _, c) => OncePerStore(c.receipts)
    case Updated(_, c) => OncePerStore(c.receipts)
    case Propagating(_, c, _, _, _) => OncePerStore(c.receipts)
    case Answered(_, c) => OncePerStore(c.receipts)
    case _ => true
  }

  ghost predicate OnceAll<E>(s: Sys<E>) {
    && (forall key :: key in s.checkpoints ==> OncePerStore(s.checkpoints[key].receipts))
    && forall w :: w in s.attempts ==> OnceIn(s.attempts[w].phase)
  }

  lemma ActOnce<E>(v: F.Sys<E>, e: F.Event<E>)
    requires !e.Env? && OnceIn(v.phase) && forall key :: key in v.checkpoints ==> OncePerStore(v.checkpoints[key].receipts)
    ensures var v' := F.Step(v, e); OnceIn(v'.phase) && forall key :: key in v'.checkpoints ==> OncePerStore(v'.checkpoints[key].receipts)
  {
    if e.Settle? && (v.phase.Propagating? || v.phase.Updated?) {
      SettledMeans(v.phase.c, e.outcome);
    }
    assert OncePerStore([]);
    hide OncePerStore, F.Settled, F.OutcomeFits, F.Protect, F.Shares, F.SoftDelete, F.RedactIf, F.CompletedFor, Current, SamePlaces;
  }

  lemma StepOnce<E>(s: Sys<E>, e: Event<E>)
    requires OnceAll(s)
    ensures OnceAll(Step(s, e))
  {
    hide F.Step, OncePerStore, F.EnvAllowed;
    if e.Act? && Acts(s, e.w, e.e) {
      ActOnce(View(s, e.w), e.e);
    }
  }

  lemma {:induction false} OnceAlways<E>(s: Sys<E>, events: seq<Event<E>>)
    requires Start(s)
    ensures OnceAll(Run(s, events))
  {
    hide Step, OncePerStore;
    if events != [] {
      OnceAlways(s, events[..|events| - 1]);
      StepOnce(Run(s, events[..|events| - 1]), events[|events| - 1]);
    }
  }

  /**
   In every run, late writes included: when an attempt settles with the receipts that came in, its checkpoint
   keeps each store's last receipt and no other, and is completed if and only if there is one and all
   acknowledge; an attempt that settles with an error is not completed.
   */
  lemma CompletesIff<E>(start: Sys<E>, events: seq<Event<E>>, w: Owner, outcome: Result<seq<F.Receipt>, string>)
    requires Start(start)
    requires w in Run(start, events).attempts
    requires var phase := Run(start, events).attempts[w].phase;
             (phase.Propagating? && F.OutcomeFits(phase, outcome)) || (phase.Updated? && outcome.Failure?)
    ensures var s := Run(start, events); var s', p := Step(s, Act(w, F.Settle(outcome))), s.attempts[w].phase;
            && F.Key(p.req) in s'.checkpoints && s'.attempts[w].phase == F.Answered(p.req, s'.checkpoints[F.Key(p.req)])
            && (outcome.Success? ==> Keeps(p.c, outcome.value, s'.checkpoints[F.Key(p.req)]))
            && (s'.checkpoints[F.Key(p.req)].completed <==>
                  (&& outcome.Success? && (p.c.receipts != [] || outcome.value != [])
                   && forall r :: Current(p.c.receipts, outcome.value, r) ==> r.acknowledged))
  {
    var s := Run(start, events);
    OnceAlways(start, events);
    SettledMeans(s.attempts[w].phase.c, outcome);
    StartHolds(start);
    RunIntent(start, events);
    IntentView(s, w);
    SettlingOpen(View(s, w));
    SettlesStep(View(s, w), outcome);
    hide Run, OnceAll, Intent, F.Settled, F.Step, OncePerStore, SamePlaces, Current;
    ActsMeans(s, w, F.Settle(outcome));
  }

  lemma SettlingOpen<E>(v: F.Sys<E>)
    requires Prepared(v) && (v.phase.Propagating? || v.phase.Updated?)
    ensures !v.phase.c.completed
  {
  }

  lemma SettlesStep<E>(v: F.Sys<E>, outcome: Result<seq<F.Receipt>, string>)
    requires (v.phase.Propagating? && F.OutcomeFits(v.phase, outcome)) || (v.phase.Updated? && outcome.Failure?)
    ensures var c := F.Settled(v.phase.c, outcome);
            F.Step(v, F.Settle(outcome)) == F.Sys(v.db, v.checkpoints[F.Key(v.phase.req) := c], F.Answered(v.phase.req, c))
  {
    hide F.Settled;
  }
}
