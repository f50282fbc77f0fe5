/**
 What an attempt to forget writes, field by field: its own row's record from the one it read, the rows it
 cascades to, and the checkpoint it goes on with.
 */
module ForgetEffects {
  import opened Wrappers
  import opened Memories
  import opened UserLease
  import opened Attempts
  import opened ForgetRuns
  import F = Forget
  import Runs = MemoryRuns

  // ---- Records ----

  /** Whose record it is, where it comes from and how it was used. */
  predicate SameOrigin(r: Record, r': Record) {
    && r'.id == r.id && r'.user == r.user && r'.session == r.session && r'.kind == r.kind && r'.sources == r.sources
    && r'.privacy == r.privacy && r'.createdAt == r.createdAt && r'.accessCount == r.accessCount && r'.lastAccessed == r.lastAccessed
    && r'.embedding.provider == r.embedding.provider && r'.embedding.model == r.embedding.model && r'.embedding.dim == r.embedding.dim
  }

  predicate SameContent(r: Record, r': Record) {
    r'.content == r.content && r'.entities == r.entities && r'.tags == r.tags && r'.embedding.vector == r.embedding.vector
  }

  predicate Erased(r: Record) {
    r.content == "[redacted]" && r.entities == [] && r.tags == [] && r.embedding.vector.None?
  }

  /** A source of the record was forgotten. */
  predicate Hidden<E>(db: Db<E>, r: Record) {
    exists i :: 0 <= i < |r.sources| && (r.user, r.sources[i]) in db.tombstones
  }

  /** A source of the record was forgotten with redaction. */
  predicate Masked<E>(db: Db<E>, r: Record) {
    exists i :: 0 <= i < |r.sources| && (r.user, r.sources[i]) in db.tombstones && db.tombstones[(r.user, r.sources[i])].redact
  }

  /** A read shows an active record as soft-deleted when a source was forgotten, and any record as erased when one was with redaction. */
  lemma ProtectMeans<E>(db: Db<E>, r: Record)
    ensures var p := F.Protect(db, r);
            && SameOrigin(r, p) && p.updatedAt == r.updatedAt
            && p.status == (if r.status.Active? && Hidden(db, r) then SoftDeleted else r.status)
            && if Masked(db, r) then Erased(p) else SameContent(r, p)
  {
    if Tombstoned(db, r.user, r.sources) {
      var source :| source in r.sources && (r.user, source) in db.tombstones;
      var i :| 0 <= i < |r.sources| && r.sources[i] == source;
    }
    if exists source :: source in r.sources && (r.user, source) in db.tombstones && db.tombstones[(r.user, source)].redact {
      var source :| source in r.sources && (r.user, source) in db.tombstones && db.tombstones[(r.user, source)].redact;
      var i :| 0 <= i < |r.sources| && r.sources[i] == source;
    }
  }

  /**
   What is to be written over a record: redacted if that is asked for or was done before, and soft-deleted
   otherwise; erased if it is redacted now or was read so, and with its content otherwise.
   */
  predicate Planned(r: Record, masked: bool, redact: bool, written: Record) {
    && SameOrigin(r, written)
    && written.status == (if redact || r.status.Redacted? then Redacted else SoftDeleted)
    && if masked || (redact && !r.status.Redacted?) then Erased(written) else SameContent(r, written)
  }

  /** Before its transitions are resolved. */
  predicate Pending(r: Record, masked: bool, taken: Record) {
    && SameOrigin(r, taken)
    && (taken.status == r.status || (taken.status.SoftDeleted? && (r.status.Active? || r.status.Archived?)))
    && if masked then Erased(taken) else SameContent(r, taken)
  }

  lemma TakenPending<E>(db: Db<E>, r: Record, existing: Option<F.Checkpoint>, now: Stamp)
    ensures Pending(r, Masked(db, r), F.Taken(existing, F.Protect(db, r), now))
  {
    ProtectMeans(db, r);
    hide F.Protect, Masked, Hidden;
  }

  lemma ResolvedPlanned(r: Record, masked: bool, taken: Record, redact: bool, now: Stamp)
    requires Pending(r, masked, taken)
    ensures Planned(r, masked, redact, F.RedactIf(F.SoftDelete(taken, now), redact, now))
  {
  }

  /** A row of the cascade: as its record was listed. */
  lemma CascadePlanned(r: Record, redact: bool, now: Stamp)
    ensures Planned(r, false, redact, F.RedactIf(F.SoftDelete(r, now), redact, now))
  {
  }

  // ---- The attempt's own row ----

  predicate Carries(phase: F.Phase, r: Record, masked: bool, redact: bool) {
    match phase
    case Intending(_, taken, _) => Pending(r, masked, taken)
    case Marking(_, taken, _, _) => Pending(r, masked, taken)
    case Updating(_, written, _) => Planned(r, masked, redact, written)
    case Updated(_, _) => true
    case Propagating(_, _, _, _, _) => true
    case Answered(_, _) => true
    case Stopped => true
    case _ => false
  }

  lemma ActCarries<E>(v: F.Sys<E>, e: F.Event<E>, req: F.Request, r: Record, masked: bool)
    requires Consistent(Attempt(req, v.phase)) && Carries(v.phase, r, masked, req.redact) && !e.Env?
    ensures Carries(F.Step(v, e).phase, r, masked, req.redact)
  {
    if e.Resolve? && v.phase.Marking? && v.phase.done == |v.phase.r.sources| {
      ResolvedPlanned(r, masked, v.phase.r, req.redact, e.now);
    }
    hide Pending, Planned, F.Protect, F.Shares, F.SoftDelete, F.RedactIf, F.Settled, F.ResolvedCheckpoint, Commit, CommitAdmits;
  }

  lemma StepCarries<E>(s: Sys<E>, e: Event<E>, w: Owner, r: Record, masked: bool)
    requires Intent(s) && w in s.attempts && Carries(s.attempts[w].phase, r, masked, s.attempts[w].req.redact)
    ensures w in Step(s, e).attempts && Step(s, e).attempts[w].req == s.attempts[w].req
    ensures Carries(Step(s, e).attempts[w].phase, r, masked, s.attempts[w].req.redact)
  {
    hide F.Step, Runs.Step, F.EnvAllowed, Intent, Carries, Consistent;
    AttemptStays(s, e, w);
    if e.Act? && e.w == w && Acts(s, w, e.e) {
      ConsistentAttempt(s, w);
      ActsMeans(s, w, e.e);
      assert Attempt(s.attempts[w].req, View(s, w).phase) == s.attempts[w];
      ActCarries(View(s, w), e.e, s.attempts[w].req, r, masked);
    }
  }

  lemma {:induction false} RunCarries<E>(s: Sys<E>, events: seq<Event<E>>, w: Owner, r: Record, masked: bool)
    requires Intent(s) && w in s.attempts && Carries(s.attempts[w].phase, r, masked, s.attempts[w].req.redact)
    ensures Intent(Run(s, events)) && w in Run(s, events).attempts && Run(s, events).attempts[w].req == s.attempts[w].req
    ensures Carries(Run(s, events).attempts[w].phase, r, masked, s.attempts[w].req.redact)
  {
    hide Step, Intent, Carries;
    if events != [] {
      var before, e := events[..|events| - 1], events[|events| - 1];
      RunCarries(s, before, w, r, masked);
      StepCarries(Run(s, before), e, w, r, masked);
      StepIntent(Run(s, before), e);
    }
  }

  lemma DecidedCarries<E>(v: F.Sys<E>, now: Stamp, redact: bool)
    requires v.phase.Deciding? && F.Step(v, F.Decide(now)).phase.Intending?
    ensures Carries(F.Step(v, F.Decide(now)).phase, v.phase.r, Masked(v.db, v.phase.r), redact)
  {
    TakenPending(v.db, v.phase.r, v.phase.existing, now);
    hide F.Protect, F.Taken, Masked, Pending;
  }

  /**
   Over every run, late writes included: the record that an attempt puts over its row comes from the one it
   read, as its request and the tombstones at its decision have it.
   */
  lemma AttemptWrites<E>(s: Sys<E>, w: Owner, now: Stamp, events: seq<Event<E>>, logical: string, evidence: E)
    requires Intent(s) && w in s.attempts && s.attempts[w].phase.Deciding?
    requires Step(s, Act(w, F.Decide(now))).attempts[w].phase.Intending?
    requires w in Run(Step(s, Act(w, F.Decide(now))), events).attempts
    requires Run(Step(s, Act(w, F.Decide(now))), events).attempts[w].phase.Updating?
    ensures var p, end := s.attempts[w].phase, Run(Step(s, Act(w, F.Decide(now))), events);
            var after := Step(end, Act(w, F.Update(logical, evidence)));
            && w in end.attempts && w in after.attempts
            && Planned(p.r, Masked(s.db, p.r), s.attempts[w].req.redact, end.attempts[w].phase.r)
            && (after.attempts[w].phase.Updated? ==> p.r.id in after.db.memories && after.db.memories[p.r.id].record == end.attempts[w].phase.r)
            && (!after.attempts[w].phase.Updated? ==> after.attempts[w].phase.Stopped? && after.db == end.db)
  {
    hide F.Step, Intent, Masked, Run, Consistent, Carries, F.Protect;
    var p, s1 := s.attempts[w].phase, Step(s, Act(w, F.Decide(now)));
    var end := Run(s1, events);
    StepIntent(s, Act(w, F.Decide(now)));
    ConsistentAttempt(s, w);
    ActsMeans(s, w, F.Decide(now));
    DecidedCarries(View(s, w), now, s.attempts[w].req.redact);
    RunCarries(s1, events, w, p.r, Masked(s.db, p.r));
    ActsMeans(end, w, F.Update(logical, evidence));
    UpdateWrites(View(end, w), logical, evidence);
    CarriedPlan(end.attempts[w].phase, p.r, Masked(s.db, p.r), s.attempts[w].req.redact);
  }

  lemma CarriedPlan(phase: F.Phase, r: Record, masked: bool, redact: bool)
    requires Carries(phase, r, masked, redact) && phase.Updating?
    ensures Planned(r, masked, redact, phase.r)
  {
  }

  lemma UpdateWrites<E>(v: F.Sys<E>, logical: string, evidence: E)
    requires v.phase.Updating?
    ensures var v' := F.Step(v, F.Update(logical, evidence));
            && (v'.phase.Updated? ==> v.phase.r.id in v'.db.memories && v'.db.memories[v.phase.r.id].record == v.phase.r)
            && (!v'.phase.Updated? ==> v'.phase.Stopped? && v'.db == v.db)
  {
    F.CommitRow(v.db, logical, v.phase.r, evidence);
    hide Commit, CommitAdmits;
  }

  // ---- The cascade ----

  /** A source in common. */
  predicate Common(sources: seq<Source>, r: Record) {
    exists i, j :: 0 <= i < |sources| && 0 <= j < |r.sources| && sources[i] == r.sources[j]
  }

  lemma SharesMeans(sources: seq<Source>, r: Record)
    ensures F.Shares(sources, r) <==> Common(sources, r)
  {
    if F.Shares(sources, r) {
      var source :| source in r.sources && source in sources;
      var j :| 0 <= j < |r.sources| && r.sources[j] == source;
      var i :| 0 <= i < |sources| && sources[i] == source;
    }
    if i, j :| 0 <= i < |sources| && 0 <= j < |r.sources| && sources[i] == r.sources[j] {
      assert r.sources[j] in sources;
    }
  }

  /** The cascade lists exactly the user's other rows that have a source in common with the row, as they are. */
  lemma ListMeans<E>(v: F.Sys<E>, id: Id)
    requires v.phase.Updated? && v.phase.req.id in v.db.memories
    ensures var p, sources := F.Step(v, F.List).phase, v.db.memories[v.phase.req.id].record.sources;
            && p.Propagating? && p.sources == sources
            && (id in p.listed <==>
                  id in v.db.memories && id != v.phase.req.id && v.db.memories[id].record.user == v.phase.req.user && Common(sources, v.db.memories[id].record))
            && (id in p.listed ==> p.listed[id] == v.db.memories[id].record)
  {
    if id in v.db.memories {
      SharesMeans(v.db.memories[v.phase.req.id].record.sources, v.db.memories[id].record);
    }
    hide F.Shares, Common;
  }

  /** Each of them is written as it was listed, soft-deleted or redacted, or remembered as failed. */
  lemma CascadeMeans<E>(v: F.Sys<E>, id: Id, now: Stamp, logical: string, evidence: E)
    requires v.phase.Propagating? && id in v.phase.listed && v.phase.listed[id].id == id
    ensures var v' := F.Step(v, F.Cascade(id, now, logical, evidence));
            && v'.phase.Propagating? && v'.phase.listed == v.phase.listed - {id}
            && (v'.phase.failed ==> v.phase.failed || v'.db == v.db)
            && (v.phase.failed ==> v'.phase.failed)
            && (!v'.phase.failed ==> id in v'.db.memories && Planned(v.phase.listed[id], false, v.phase.req.redact, v'.db.memories[id].record))
            && forall o :: o in v.db.memories && o != id ==> o in v'.db.memories && v'.db.memories[o] == v.db.memories[o]
  {
    var derived := F.RedactIf(F.SoftDelete(v.phase.listed[id], now), v.phase.req.redact, now);
    CascadePlanned(v.phase.listed[id], v.phase.req.redact, now);
    F.CommitRow(v.db, logical, derived, evidence);
    F.DerivedRecord(v.phase.listed[id], v.phase.req.redact, now);
    hide Commit, CommitAdmits, F.SoftDelete, F.RedactIf, Planned;
  }

  // ---- The checkpoint ----

  /** An attempt answers at once exactly from a completed checkpoint that has what the request asks for; otherwise it goes on with one more attempt counted. */
  lemma DecideMeans<E>(v: F.Sys<E>, now: Stamp)
    requires v.phase.Deciding?
    ensures var p, next := v.phase, F.Step(v, F.Decide(now)).phase;
            var done := p.existing.Some? && p.existing.value.completed && (!p.req.redact || p.existing.value.redaction.Some? || p.r.status.Redacted?);
            && F.Step(v, F.Decide(now)).db == v.db && F.Step(v, F.Decide(now)).checkpoints == v.checkpoints
            && if done then next == F.Answered(p.req, p.existing.value)
               else
                 && next.Intending? && next.req == p.req && !next.c.completed
                 && (p.existing.Some? ==>
                       next.c.receipts == p.existing.value.receipts && next.c.redaction == p.existing.value.redaction && next.c.transition == p.existing.value.transition
                       && (p.existing.value.attempts < 0xFFFF_FFFF ==> next.c.attempts == p.existing.value.attempts + 1)
                       && (p.existing.value.attempts >= 0xFFFF_FFFF ==> next.c.attempts == p.existing.value.attempts))
                 && (p.existing.None? ==>
                       next.c.receipts == [] && next.c.redaction.None? && next.c.attempts == 1
                       && var shown := if p.r.status.Active? && Hidden(v.db, p.r) then SoftDeleted else p.r.status;
                          next.c.transition == F.Change(shown, if shown.Redacted? then Redacted else SoftDeleted))
  {
    ProtectMeans(v.db, v.phase.r);
    F.MaskedStatus(v.db, v.phase.r, v.phase.existing, now);
    hide F.Protect, F.Taken, Hidden;
  }

  /** Resolving records the soft deletion of a record that is not forgotten yet, and the redaction of one that is not redacted yet if that is asked for. */
  lemma ResolveMeans<E>(v: F.Sys<E>, now: Stamp)
    requires v.phase.Marking? && v.phase.done == |v.phase.r.sources|
    ensures var p, v' := v.phase, F.Step(v, F.Resolve(now));
            && v'.phase.Updating? && v'.phase.req == p.req && v'.db == v.db && v'.checkpoints == v.checkpoints[F.Key(p.req) := v'.phase.c]
            && v'.phase.c == p.c.(transition := v'.phase.c.transition, redaction := v'.phase.c.redaction)
            && v'.phase.c.transition == (if p.r.status.Active? || p.r.status.Archived? then F.Change(p.r.status, SoftDeleted) else p.c.transition)
            && v'.phase.c.redaction == if p.req.redact && !p.r.status.Redacted? then Some(F.Change(SoftDeleted, Redacted)) else p.c.redaction
  {
  }
}
