/**
 Whole runs of forget attempts: what holds whoever writes when, and what holds when no attempt writes
 after its lease lapsed.
 */
module ForgetRuns {
  import opened Memories
  import opened ForgetIntent
  import opened Attempts
  import opened UserLease
  import F = Forget
  import Runs = MemoryRuns

  // ---- Every run ----

  /** No run brings a forgotten row back, and a completed checkpoint has non-empty acknowledged receipts and a forgotten row. */
  lemma CompletedIsSealed<E>(s: Sys<E>, events: seq<Event<E>>, later: seq<Event<E>>, user: User, id: Id)
    requires Start(s)
    ensures var mid := Run(s, events); var end := Run(mid, later);
            && ((user, id) in mid.checkpoints && mid.checkpoints[(user, id)].completed ==>
                  F.AllAcknowledged(mid.checkpoints[(user, id)].receipts) && Dead(mid.db, user, id) && Dead(end.db, user, id))
            && (Dead(mid.db, user, id) ==> Dead(end.db, user, id))
  {
    hide Step, F.AllAcknowledged;
    StartHolds(s);
    RunIntent(s, events);
    RunIntent(Run(s, events), later);
  }

  /**
   Intent before effect: when an attempt's write of the record reaches the row, the checkpoint and
   every tombstone of the record it writes are there, and stay for good, as the row stays forgotten.
   No lease is assumed, neither for this attempt nor for any other.
   */
  lemma IntentPrecedesEffect<E>(s: Sys<E>, w: Owner, logical: string, evidence: E, later: seq<Event<E>>)
    requires Intent(s) && w in s.attempts && s.attempts[w].phase.Updating? && CommitAdmits(s.db, logical, s.attempts[w].phase.r)
    ensures var p := s.attempts[w].phase; var s' := Step(s, Act(w, F.Update(logical, evidence))); var end := Run(s', later);
            && F.Key(p.req) in s.checkpoints && F.Marked(s.db, p.req.user, p.r.sources)
            && p.req.id in s'.db.memories && s'.db.memories[p.req.id].record == p.r
            && F.Key(p.req) in end.checkpoints && F.Marked(end.db, p.req.user, p.r.sources) && Dead(end.db, p.req.user, p.req.id)
  {
    hide Commit, CommitAdmits, Run;
    var p, e := s.attempts[w].phase, Act(w, F.Update(logical, evidence));
    var s' := Step(s, e);
    F.CommitRow(s.db, logical, p.r, evidence);
    StepIntent(s, e);
    RunIntent(s', later);
    hide Step;
  }

  // ---- Runs without a late write ----

  /** What a finished or unfinished forget leaves behind. */
  ghost predicate DurableAt<E>(s: Sys<E>, user: User, id: Id) {
    var v := F.Sys(s.db, s.checkpoints, F.Idle);
    && (id in s.db.memories && F.Inactive(s.db.memories[id].record) ==>
          var r := s.db.memories[id].record;
          F.Forgotten(v, r.user, id) || Tombstoned(s.db, r.user, r.sources))
    && ((user, id) in s.checkpoints && s.checkpoints[(user, id)].completed ==> F.Completed(v, user, id))
  }

  /**
   At every point of every run without a late write: a forgotten row has its checkpoint and all its
   source tombstones, or it fell to the cascade and one of its sources has a tombstone; and a completed
   checkpoint has receipts that are all acknowledged, its row is forgotten with its intent in place, and
   no row of the user is left carrying one of its sources.
   */
  lemma ForgetIsDurable<E>(s: Sys<E>, events: seq<Event<E>>, user: User, id: Id)
    requires Start(s) && AllOnTime(s, events)
    ensures DurableAt(Run(s, events), user, id)
  {
    hide Step, F.Completed, F.Forgotten, F.PhaseInv;
    StartHolds(s);
    RunInv(s, events);
  }

  // ---- One worker among the others ----

  lemma HeldBefore<E>(s: Sys<E>, e: Event<E>, w: Owner)
    requires w in s.attempts && Holds(Step(s, e), w)
    ensures Holds(s, w) && w in Step(s, e).attempts && Step(s, e).attempts[w].req == s.attempts[w].req
  {
    hide F.Step, Runs.Step, F.EnvAllowed;
  }

  lemma IntentView<E>(s: Sys<E>, w: Owner)
    requires Intent(s) && w in s.attempts
    ensures Base(View(s, w)) && Prepared(View(s, w)) && Consistent(Attempt(s.attempts[w].req, View(s, w).phase))
  {
    hide Keyed, BlankRows, CompletedSealed, Prepared, Base;
    BaseOf(s, s.attempts[w].phase);
    assert Attempt(s.attempts[w].req, View(s, w).phase) == s.attempts[w];
  }

  lemma SameRows<E>(v: F.Sys<E>, v': F.Sys<E>, user: User)
    requires SameFor(v, v', user)
    ensures forall id :: id in v.db.memories && v.db.memories[id].record.user == user ==> id in v'.db.memories && v'.db.memories[id] == v.db.memories[id]
  {
  }

  /** Nobody else's step in time changes the user's rows while the worker holds the lease. */
  lemma OthersLeaveRow<E>(s: Sys<E>, e: Event<E>, w: Owner)
    requires Inv(s) && Intent(s) && OnTime(s, e) && w in s.attempts && Holds(Step(s, e), w)
    requires !(e.Act? && e.w == w)
    ensures var s' := Step(s, e);
            && s'.attempts[w] == s.attempts[w]
            && forall id :: (id in s.db.memories && s.db.memories[id].record.user == s.attempts[w].req.user && F.Inactive(s.db.memories[id].record))
                 ==> id in s'.db.memories && s'.db.memories[id].record == s.db.memories[id].record
  {
    hide F.Step, Runs.Step, F.EnvAllowed, Inv, Intent, SameFor;
    HeldBefore(s, e, w);
    if e.Act? && Acts(s, e.w, e.e) {
      ActsMeans(s, e.w, e.e);
      if Holds(s, e.w) {
        HoldersDiffer(s, w, e.w);
        IntentView(s, e.w);
        ActElsewhere(View(s, e.w), e.e, s.attempts[e.w].req, s.attempts[w].req.user);
        SameRows(View(s, e.w), F.Step(View(s, e.w), e.e), s.attempts[w].req.user);
      } else {
        ReadsOnly(View(s, e.w), e.e);
      }
    } else if e.Env? && F.EnvAllowed(e.env) {
      forall id | id in s.db.memories && F.Inactive(s.db.memories[id].record)
        ensures F.RowKept(s.db, Runs.Step(s.db, e.env), id)
      {
        F.EnvRow(s.db, e.env, id);
      }
    }
  }

  lemma HolderView<E>(s: Sys<E>, w: Owner)
    requires Inv(s) && Holds(s, w)
    ensures F.PhaseInv(View(s, w))
  {
  }

  lemma ConsistentAttempt<E>(s: Sys<E>, w: Owner)
    requires Intent(s) && w in s.attempts
    ensures Consistent(s.attempts[w])
  {
    hide Prepared;
  }

  lemma AttemptStays<E>(s: Sys<E>, e: Event<E>, w: Owner)
    requires w in s.attempts
    ensures w in Step(s, e).attempts && Step(s, e).attempts[w].req == s.attempts[w].req
  {
    hide F.Step, Runs.Step, F.EnvAllowed;
  }

  lemma {:induction false} StaysAttempt<E>(s: Sys<E>, events: seq<Event<E>>, w: Owner)
    requires w in s.attempts
    ensures w in Run(s, events).attempts && Run(s, events).attempts[w].req == s.attempts[w].req
  {
    hide Step;
    if events != [] {
      StaysAttempt(s, events[..|events| - 1], w);
      AttemptStays(Run(s, events[..|events| - 1]), events[|events| - 1], w);
    }
  }
}
