/** Repeating a request that was answered as completed. */
module ForgetRepeats {
  import opened Wrappers
  import opened Memories
  import opened ForgetIntent
  import opened Attempts
  import opened UserLease
  import opened ForgetRuns
  import opened ForgetRedaction
  import F = Forget
  import Runs = MemoryRuns

  /** The request's completed answer is stored, and no attempt on its memory can write any more. */
  ghost predicate AnswerStands<E>(s: Sys<E>, req: F.Request, c: F.Checkpoint) {
    && c.completed && F.Key(req) in s.checkpoints && s.checkpoints[F.Key(req)] == c
    && req.id in s.db.memories && s.db.memories[req.id].record.user == req.user
    && (req.redact ==> c.redaction.Some? || s.db.memories[req.id].record.status.Redacted?)
    && forall u :: u in s.attempts && F.Key(s.attempts[u].req) == F.Key(req) ==> Finished(s.attempts[u].phase) || !Holds(s, u)
  }

  predicate ClaimsOn<E>(e: Event<E>, key: (User, Id)) {
    e.Claim? && F.Key(e.req) == key
  }

  lemma CheckpointElsewhere<E>(v: F.Sys<E>, e: F.Event<E>, req: F.Request, key: (User, Id))
    requires Consistent(Attempt(req, v.phase)) && !e.Env? && (key != F.Key(req) || Finished(v.phase))
    ensures key in v.checkpoints ==> key in F.Step(v, e).checkpoints && F.Step(v, e).checkpoints[key] == v.checkpoints[key]
  {
    hide F.Protect, F.Shares, F.Settled, F.ResolvedCheckpoint, F.SoftDelete, F.RedactIf, F.CompletedFor, Commit, CommitAdmits;
  }

  lemma FinishedStays<E>(v: F.Sys<E>, e: F.Event<E>)
    requires Finished(v.phase) && !e.Env?
    ensures Finished(F.Step(v, e).phase)
  {
    hide F.Protect, F.Shares, F.Settled, F.ResolvedCheckpoint, F.SoftDelete, F.RedactIf, F.CompletedFor, Commit, CommitAdmits;
  }

  lemma AnswerCheckpoint<E>(s: Sys<E>, e: Event<E>, req: F.Request, c: F.Checkpoint)
    requires Intent(s) && OnTime(s, e) && AnswerStands(s, req, c)
    ensures F.Key(req) in Step(s, e).checkpoints && Step(s, e).checkpoints[F.Key(req)] == c
  {
    hide F.Step, Runs.Step, F.EnvAllowed, Intent, Holds, Finished;
    if e.Act? && Acts(s, e.w, e.e) {
      ActsMeans(s, e.w, e.e);
      ConsistentAttempt(s, e.w);
      assert Attempt(s.attempts[e.w].req, View(s, e.w).phase) == s.attempts[e.w];
      if Writes(e.e) {
        CheckpointElsewhere(View(s, e.w), e.e, s.attempts[e.w].req, F.Key(req));
      } else {
        ReadsOnly(View(s, e.w), e.e);
      }
    }
  }

  lemma AnswerAttempts<E>(s: Sys<E>, e: Event<E>, req: F.Request, c: F.Checkpoint, u: Owner)
    requires AnswerStands(s, req, c) && !ClaimsOn(e, F.Key(req))
    requires u in Step(s, e).attempts && F.Key(Step(s, e).attempts[u].req) == F.Key(req)
    ensures Finished(Step(s, e).attempts[u].phase) || !Holds(Step(s, e), u)
  {
    hide F.Step, Runs.Step, F.EnvAllowed, Holds, Finished;
    if u in s.attempts {
      AttemptStays(s, e, u);
      if Holds(Step(s, e), u) {
        HeldBefore(s, e, u);
        if e.Act? && e.w == u && Acts(s, u, e.e) {
          ActsMeans(s, u, e.e);
          FinishedStays(View(s, u), e.e);
        } else {
          OwnStepOnly(s, e, u);
        }
      }
    } else {
      OnlyClaims(s, e, u);
    }
  }

  lemma OwnStepOnly<E>(s: Sys<E>, e: Event<E>, u: Owner)
    requires u in s.attempts && !(e.Act? && e.w == u && Acts(s, u, e.e))
    ensures u in Step(s, e).attempts && Step(s, e).attempts[u] == s.attempts[u]
  {
    hide F.Step, Runs.Step, F.EnvAllowed;
  }

  lemma OnlyClaims<E>(s: Sys<E>, e: Event<E>, u: Owner)
    requires u !in s.attempts && u in Step(s, e).attempts
    ensures e.Claim? && Step(s, e).attempts[u].req == e.req
  {
    hide F.Step, Runs.Step, F.EnvAllowed;
  }

  lemma AnswerStep<E>(s: Sys<E>, e: Event<E>, req: F.Request, c: F.Checkpoint)
    requires Inv(s) && Intent(s) && OnTime(s, e) && AnswerStands(s, req, c) && !ClaimsOn(e, F.Key(req))
    ensures AnswerStands(Step(s, e), req, c)
  {
    var s' := Step(s, e);
    AnswerCheckpoint(s, e, req, c);
    StepIntent(s, e);
    if s.db.memories[req.id].record.status.Redacted? {
      InTimeNeverUndoes(s, e, req.id);
    }
    forall u | u in s'.attempts && F.Key(s'.attempts[u].req) == F.Key(req)
      ensures Finished(s'.attempts[u].phase) || !Holds(s', u)
    {
      AnswerAttempts(s, e, req, c, u);
    }
    hide Step, Inv, Intent, OnTime, Holds, Finished, ClaimsOn;
  }

  lemma {:induction false} AnswerRun<E>(s: Sys<E>, events: seq<Event<E>>, req: F.Request, c: F.Checkpoint)
    requires Inv(s) && Intent(s) && AllOnTime(s, events) && AnswerStands(s, req, c)
    requires forall e :: e in events ==> !ClaimsOn(e, F.Key(req))
    ensures AnswerStands(Run(s, events), req, c)
  {
    hide Step, Inv, Intent, OnTime, AnswerStands, ClaimsOn;
    if events != [] {
      var before := events[..|events| - 1];
      assert events[|events| - 1] in events;
      AnswerRun(s, before, req, c);
      RunInv(s, before);
      AnswerStep(Run(s, before), events[|events| - 1], req, c);
    }
  }

  /** A new worker's claim, its two reads and its decision. */
  function Asked<E>(s: Sys<E>, v: Owner, req: F.Request, now: Stamp): Sys<E> {
    Step(Step(Step(Step(s, Claim(v, req)), Act(v, F.Begin(req))), Act(v, F.Load)), Act(v, F.Decide(now)))
  }

  lemma AskedFinds<E>(s: Sys<E>, v: Owner, req: F.Request, now: Stamp, c: F.Checkpoint)
    requires v !in s.attempts && LeaseAdmits(s, req.user, v) && AnswerStands(s, req, c)
    ensures var end := Asked(s, v, req, now);
            && end.db == s.db && end.checkpoints == s.checkpoints
            && v in end.attempts && end.attempts[v].phase == F.Answered(req, c)
  {
    var claimed := Step(s, Claim(v, req));
    var r := s.db.memories[req.id].record;
    assert claimed.attempts[v] == Attempt(req, F.Idle);
    var begun := Step(claimed, Act(v, F.Begin(req)));
    assert begun.attempts[v].phase == F.Loading(req, Some(c)) && begun.db == s.db && begun.checkpoints == s.checkpoints;
    var loaded := Step(begun, Act(v, F.Load));
    assert loaded.attempts[v].phase == F.Deciding(req, Some(c), r) && loaded.db == s.db && loaded.checkpoints == s.checkpoints;
    F.MaskedStatus(s.db, r, Some(c), now);
    hide F.Protect, F.AllAcknowledged, AnswerStands;
  }

  /**
   Repeating a request that was answered as completed changes nothing and gives the same answer, after
   any run without late writes in which nobody asked to forget the same memory; forgets of other
   memories and their cascades included.
   */
  lemma RepeatChangesNothing<E>(s: Sys<E>, w: Owner, events: seq<Event<E>>, v: Owner, now: Stamp)
    requires Inv(s) && Intent(s) && Holds(s, w) && s.attempts[w].phase.Answered? && s.attempts[w].phase.c.completed
    requires AllOnTime(s, events) && forall e :: e in events ==> !ClaimsOn(e, F.Key(s.attempts[w].phase.req))
    requires v !in Run(s, events).attempts && LeaseAdmits(Run(s, events), s.attempts[w].phase.req.user, v)
    ensures var p, end := s.attempts[w].phase, Run(s, events);
            && Asked(end, v, p.req, now).db == end.db && Asked(end, v, p.req, now).checkpoints == end.checkpoints
            && v in Asked(end, v, p.req, now).attempts && Asked(end, v, p.req, now).attempts[v].phase == F.Answered(p.req, p.c)
  {
    AnswerIsStored(s, w);
    hide Inv, Intent, Holds, AllOnTime, Run, AnswerStands, LeaseAdmits, Asked, ClaimsOn;
    var p := s.attempts[w].phase;
    AnswerRun(s, events, p.req, p.c);
    AskedFinds(Run(s, events), v, p.req, now, p.c);
  }

  lemma AnswerIsStored<E>(s: Sys<E>, w: Owner)
    requires Inv(s) && Intent(s) && Holds(s, w) && s.attempts[w].phase.Answered? && s.attempts[w].phase.c.completed
    ensures AnswerStands(s, s.attempts[w].phase.req, s.attempts[w].phase.c)
  {
    hide Prepared, Durable, Keyed, BlankRows, CompletedSealed;
    ConsistentAttempt(s, w);
    forall u | u in s.attempts && F.Key(s.attempts[u].req) == F.Key(s.attempts[w].phase.req)
      ensures Finished(s.attempts[u].phase) || !Holds(s, u)
    {
      if u != w && Holds(s, u) {
        HoldersDiffer(s, w, u);
      }
    }
  }
}
