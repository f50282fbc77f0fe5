/**
 How far a redaction reaches. A redacting forget that completes in time has left its row, and every row
 of the user with one of its sources, redacted, and they stay so in every run without late writes. A
 checkpoint that speaks of a redaction promises as much, unless a plain request took it over unfinished,
 be it with its own row redacted already.
 */
module ForgetSpread {
  import opened Wrappers
  import opened Memories
  import opened UserLease
  import opened ForgetIntent
  import opened Attempts
  import opened ForgetRuns
  import opened ForgetRedaction
  import F = Forget
  import Runs = MemoryRuns

  /** Every row of the user that carries one of the sources is redacted. */
  predicate AllRedacted<E>(db: Db<E>, user: User, sources: seq<Source>) {
    forall o :: o in db.memories && db.memories[o].record.user == user && F.Shares(sources, db.memories[o].record) ==>
      db.memories[o].record.status.Redacted?
  }

  /** The row is redacted with all its sources forgotten, and so is every row that shares one of them. */
  predicate Spread<E>(db: Db<E>, user: User, id: Id) {
    && id in db.memories && db.memories[id].record.user == user && db.memories[id].record.status.Redacted?
    && F.Marked(db, user, db.memories[id].record.sources) && AllRedacted(db, user, db.memories[id].record.sources)
  }

  /** A record that carries one of the sources is redacted. */
  predicate Obeys(sources: seq<Source>, r: Record) {
    F.Shares(sources, r) ==> r.status.Redacted?
  }

  /** All that the attempt may still write obeys. */
  predicate Obeying(phase: F.Phase, sources: seq<Source>) {
    match phase
    case Deciding(_, _, r) => Obeys(sources, r)
    case Intending(_, r, _) => Obeys(sources, r)
    case Marking(_, r, _, _) => Obeys(sources, r)
    case Updating(_, r, _) => Obeys(sources, r)
    case Propagating(_, _, _, listed, _) => forall o :: o in listed ==> Obeys(sources, listed[o])
    case _ => true
  }

  /** Outside the list, whatever carries one of the sources is redacted. */
  predicate Reached<E>(db: Db<E>, user: User, sources: seq<Source>, listed: map<Id, Record>) {
    forall o :: o in db.memories && o !in listed && db.memories[o].record.user == user && F.Shares(sources, db.memories[o].record) ==>
      db.memories[o].record.status.Redacted?
  }

  /** How far a redacting cascade has come. */
  predicate Reaching<E>(v: F.Sys<E>, req: F.Request) {
    v.phase.Propagating? && req.redact ==> v.phase.failed || Reached(v.db, req.user, v.phase.sources, v.phase.listed)
  }

  // ---- Others leave it alone ----

  /** The user's inactive rows are the same ones. */
  ghost predicate Still<E>(db: Db<E>, db': Db<E>, user: User) {
    && (forall id :: id in db.memories && db.memories[id].record.user == user && F.Inactive(db.memories[id].record) ==>
          id in db'.memories && db'.memories[id].record == db.memories[id].record)
    && (forall id :: id in db'.memories && db'.memories[id].record.user == user && F.Inactive(db'.memories[id].record) ==>
          id in db.memories && db.memories[id].record == db'.memories[id].record)
  }

  lemma SameIsStill<E>(v: F.Sys<E>, v': F.Sys<E>, user: User)
    requires SameFor(v, v', user)
    ensures Still(v.db, v'.db, user)
  {
  }

  lemma EnvIsStill<E>(db: Db<E>, e: Runs.Event<E>, user: User)
    requires F.EnvAllowed(e)
    ensures Still(db, Runs.Step(db, e), user)
  {
    hide Runs.Step, F.EnvAllowed;
    forall id | id in Runs.Step(db, e).memories && F.Inactive(Runs.Step(db, e).memories[id].record)
      ensures id in db.memories && db.memories[id].record == Runs.Step(db, e).memories[id].record
    {
      if id in db.memories {
        F.EnvRow(db, e, id);
      } else {
        EnvNewRow(db, e, id);
      }
    }
    forall id | id in db.memories && F.Inactive(db.memories[id].record)
      ensures id in Runs.Step(db, e).memories && Runs.Step(db, e).memories[id].record == db.memories[id].record
    {
      F.EnvRow(db, e, id);
    }
  }

  lemma ReachingStill<E>(v: F.Sys<E>, v': F.Sys<E>, req: F.Request)
    requires Reaching(v, req) && v'.phase == v.phase && Still(v.db, v'.db, req.user) && F.PhaseInv(v')
    requires v.phase.Propagating? ==> v.phase.req == req
    ensures Reaching(v', req)
  {
    hide F.Shares, F.Advances, F.Forgotten;
    if v.phase.Propagating? && req.redact && !v.phase.failed {
      forall o | o in v'.db.memories && o !in v.phase.listed && v'.db.memories[o].record.user == req.user
                 && F.Shares(v.phase.sources, v'.db.memories[o].record)
        ensures v'.db.memories[o].record.status.Redacted?
      {
        assert !F.Live(v'.db, req.user, v.phase.sources, o);
      }
    }
  }

  /** Rows with all their sources forgotten gain no live row beside them. */
  lemma SpreadStill<E>(v: F.Sys<E>, v': F.Sys<E>, user: User, id: Id)
    requires Still(v.db, v'.db, user) && Spread(v.db, user, id) && F.Careful(v, v')
    ensures Spread(v'.db, user, id) && v'.db.memories[id].record == v.db.memories[id].record
  {
    hide F.Shares, F.Forgotten, Tombstoned;
    var sources := v.db.memories[id].record.sources;
    forall o | o in v'.db.memories && v'.db.memories[o].record.user == user && F.Shares(sources, v'.db.memories[o].record)
      ensures v'.db.memories[o].record.status.Redacted?
    {
      NotLive(v, v', user, sources, o);
    }
  }

  lemma NotLive<E>(v: F.Sys<E>, v': F.Sys<E>, user: User, sources: seq<Source>, o: Id)
    requires F.Careful(v, v') && F.Marked(v.db, user, sources) && AllRedacted(v.db, user, sources)
    ensures !F.Live(v'.db, user, sources, o)
  {
    hide F.Forgotten, Tombstoned, F.Shares, F.Grows;
    assert !F.Live(v.db, user, sources, o);
  }

  // ---- The attempt's own steps ----

  lemma StaysRedacted(r: Record, redact: bool, now: Stamp)
    ensures r.status.Redacted? ==> F.RedactIf(F.SoftDelete(r, now), redact, now).status.Redacted?
  {
  }

  lemma RowObeys<E>(db: Db<E>, user: User, sources: seq<Source>, o: Id)
    requires AllRedacted(db, user, sources) && o in db.memories && db.memories[o].record.user == user
    ensures Obeys(sources, db.memories[o].record)
  {
  }

  lemma ReadObeying<E>(v: F.Sys<E>, e: F.Event<E>, req: F.Request, sources: seq<Source>)
    requires Obeying(v.phase, sources) && AllRedacted(v.db, req.user, sources) && Consistent(Attempt(req, v.phase))
    requires e.Load? || e.List? || e.Decide?
    requires Prepared(v)
    ensures Obeying(F.Step(v, e).phase, sources)
  {
    hide AllRedacted;
    if e.Load? && v.phase.Loading? && req.id in v.db.memories && v.db.memories[req.id].record.user == req.user {
      RowObeys(v.db, req.user, sources, req.id);
    } else if e.List? && v.phase.Updated? && req.id in v.db.memories {
      forall o | o in F.Step(v, e).phase.listed
        ensures Obeys(sources, F.Step(v, e).phase.listed[o])
      {
        RowObeys(v.db, req.user, sources, o);
      }
    } else if e.Decide? && v.phase.Deciding? {
      F.MaskedStatus(v.db, v.phase.r, v.phase.existing, e.now);
      MaskedOwn(v.db, v.phase.req, v.phase.existing, v.phase.r, e.now);
      SharesSources(sources, v.phase.r, F.Taken(v.phase.existing, F.Protect(v.db, v.phase.r), e.now));
    }
    hide F.Shares, F.Protect, F.Taken;
  }

  lemma SharesSources(sources: seq<Source>, r: Record, r': Record)
    requires r'.sources == r.sources && (r.status.Redacted? ==> r'.status.Redacted?)
    ensures Obeys(sources, r) ==> Obeys(sources, r')
  {
  }

  lemma WriteObeying<E>(v: F.Sys<E>, e: F.Event<E>, sources: seq<Source>)
    requires Obeying(v.phase, sources) && !e.Load? && !e.List? && !e.Decide? && !e.Env?
    ensures Obeying(F.Step(v, e).phase, sources)
  {
    hide Commit, CommitAdmits, F.Shares, F.Settled, F.SoftDelete, F.RedactIf;
    if e.Resolve? && v.phase.Marking? && v.phase.done == |v.phase.r.sources| {
      F.DerivedRecord(v.phase.r, v.phase.req.redact, e.now);
      StaysRedacted(v.phase.r, v.phase.req.redact, e.now);
      SharesSources(sources, v.phase.r, F.RedactIf(F.SoftDelete(v.phase.r, e.now), v.phase.req.redact, e.now));
    }
  }

  lemma ActObeying<E>(v: F.Sys<E>, e: F.Event<E>, req: F.Request, sources: seq<Source>)
    requires Obeying(v.phase, sources) && AllRedacted(v.db, req.user, sources) && Consistent(Attempt(req, v.phase)) && Prepared(v) && !e.Env?
    ensures Obeying(F.Step(v, e).phase, sources)
  {
    hide Obeying, AllRedacted, F.Step, Consistent, Prepared;
    if e.Load? || e.List? || e.Decide? {
      ReadObeying(v, e, req, sources);
    } else {
      WriteObeying(v, e, sources);
    }
  }

  /** The record a step writes obeys. */
  lemma WrittenObeys<E>(v: F.Sys<E>, e: F.Event<E>, sources: seq<Source>)
    requires Obeying(v.phase, sources) && ForgetRedaction.Written(v, e).Some?
    ensures Obeys(sources, ForgetRedaction.Written(v, e).value)
  {
    hide Commit, CommitAdmits, F.Shares, F.SoftDelete;
    if e.Cascade? {
      F.DerivedRecord(v.phase.listed[e.id], v.phase.req.redact, e.now);
      StaysRedacted(v.phase.listed[e.id], v.phase.req.redact, e.now);
      SharesSources(sources, v.phase.listed[e.id], ForgetRedaction.Written(v, e).value);
    }
  }

  lemma ActRows<E>(v: F.Sys<E>, e: F.Event<E>, o: Id)
    requires !e.Env? && o in F.Step(v, e).db.memories
    ensures (o in v.db.memories && F.Step(v, e).db.memories[o].record == v.db.memories[o].record)
            || (ForgetRedaction.Written(v, e).Some? && F.Step(v, e).db.memories[o].record == ForgetRedaction.Written(v, e).value)
  {
    hide Commit, CommitAdmits, F.SoftDelete, F.RedactIf;
    match e {
      case Update(logical, evidence) =>
        if v.phase.Updating? {
          F.CommitRow(v.db, logical, v.phase.r, evidence);
        }
      case Cascade(other, now, logical, evidence) =>
        if v.phase.Propagating? && other in v.phase.listed {
          F.CommitRow(v.db, logical, F.RedactIf(F.SoftDelete(v.phase.listed[other], now), v.phase.req.redact, now), evidence);
        }
      case _ => OtherStepsKeepRows(v, e);
    }
  }

  lemma ActSpread<E>(v: F.Sys<E>, e: F.Event<E>, user: User, id: Id)
    requires Spread(v.db, user, id) && Obeying(v.phase, v.db.memories[id].record.sources) && !e.Env? && F.Careful(v, F.Step(v, e))
    ensures Spread(F.Step(v, e).db, user, id) && F.Step(v, e).db.memories[id].record.sources == v.db.memories[id].record.sources
  {
    hide F.Step, Obeying, F.Shares, ForgetRedaction.Written, F.Forgotten, F.Live, Tombstoned;
    var v' := F.Step(v, e);
    var sources := v.db.memories[id].record.sources;
    assert v'.db.memories[id].record.sources == sources && v'.db.memories[id].record.status.Redacted?;
    forall o | o in v'.db.memories && v'.db.memories[o].record.user == user && F.Shares(sources, v'.db.memories[o].record)
      ensures v'.db.memories[o].record.status.Redacted?
    {
      ActRows(v, e, o);
      if ForgetRedaction.Written(v, e).Some? {
        WrittenObeys(v, e, sources);
      }
    }
  }

  // ---- A redacting cascade ----

  lemma ReachedOn<E>(db: Db<E>, db': Db<E>, user: User, sources: seq<Source>, listed: map<Id, Record>, id: Id, derived: Record)
    requires Reached(db, user, sources, listed) && derived.status.Redacted?
    requires id in db'.memories && db'.memories[id].record == derived
    requires forall o :: o in db'.memories && o != id ==> o in db.memories && db'.memories[o] == db.memories[o]
    ensures Reached(db', user, sources, listed - {id})
  {
    hide F.Shares;
  }

  lemma ListedId<E>(v: F.Sys<E>, id: Id)
    requires F.PhaseInv(v) && v.phase.Propagating? && id in v.phase.listed
    ensures v.phase.listed[id].id == id
  {
    hide F.Forgotten, F.Live, F.Shares, F.Rank;
  }

  lemma CascadeReaching<E>(v: F.Sys<E>, id: Id, now: Stamp, logical: string, evidence: E, req: F.Request)
    requires Reaching(v, req) && F.PhaseInv(v) && Consistent(Attempt(req, v.phase)) && v.phase.Propagating? && id in v.phase.listed
    ensures Reaching(F.Step(v, F.Cascade(id, now, logical, evidence)), req)
  {
    hide Commit, CommitAdmits, F.Live, F.Advances, F.Forgotten;
    var v' := F.Step(v, F.Cascade(id, now, logical, evidence));
    if req.redact && !v'.phase.failed {
      var derived := F.RedactIf(F.SoftDelete(v.phase.listed[id], now), req.redact, now);
      F.DerivedRecord(v.phase.listed[id], req.redact, now);
      F.CommitRow(v.db, logical, derived, evidence);
      ListedId(v, id);
      ReachedOn(v.db, v'.db, req.user, v.phase.sources, v.phase.listed, id, derived);
    }
    hide Reached, F.Shares, F.SoftDelete, F.RedactIf;
  }

  lemma ListReaching<E>(v: F.Sys<E>, req: F.Request)
    requires F.PhaseInv(v) && Consistent(Attempt(req, v.phase)) && v.phase.Updated?
    ensures Reaching(F.Step(v, F.List), req)
  {
    hide F.Shares;
  }

  lemma ActReaching<E>(v: F.Sys<E>, e: F.Event<E>, req: F.Request)
    requires Reaching(v, req) && F.PhaseInv(v) && Consistent(Attempt(req, v.phase)) && !e.Env?
    ensures Reaching(F.Step(v, e), req)
  {
    hide Commit, CommitAdmits, F.PhaseInv, F.Shares, F.Protect, F.Settled, F.SoftDelete, F.RedactIf, F.ResolvedCheckpoint, F.CompletedFor;
    if e.Cascade? && v.phase.Propagating? && e.id in v.phase.listed {
      CascadeReaching(v, e.id, e.now, e.logical, e.evidence, req);
    } else if e.List? && v.phase.Updated? {
      ListReaching(v, req);
    } else if e.Scrub? && v.phase.Propagating? && req.redact && !v.phase.failed {
      ReachedSame(v.db, F.Step(v, e).db, req.user, v.phase.sources, v.phase.listed);
    }
    hide Reached;
  }

  lemma ReachedSame<E>(db: Db<E>, db': Db<E>, user: User, sources: seq<Source>, listed: map<Id, Record>)
    requires Reached(db, user, sources, listed) && db'.memories == db.memories
    ensures Reached(db', user, sources, listed)
  {
  }

  /** A redacting attempt that settles as completed. */
  lemma SettleSpreads<E>(v: F.Sys<E>, outcome: Result<seq<F.Receipt>, string>, req: F.Request)
    requires Reaching(v, req) && F.PhaseInv(v) && Consistent(Attempt(req, v.phase)) && req.redact
    requires (v.phase.Propagating? && F.OutcomeFits(v.phase, outcome)) || (v.phase.Updated? && outcome.Failure?)
    requires F.Settled(v.phase.c, outcome).completed
    ensures Spread(F.Step(v, F.Settle(outcome)).db, req.user, req.id)
  {
    F.UpdatedHolds(v);
    F.SettleAnswered(v, outcome);
    if v.phase.Propagating? && v.phase.failed {
      F.MergedTail(v.phase.c.receipts, outcome.value);
    }
    hide F.MergeReceipts, F.Live, F.Advances, F.Shares, F.Rank;
  }

  // ---- Every step in time ----

  /** The redaction has spread, and no worker within its lease is about to write against it. */
  ghost predicate KeyKept<E>(s: Sys<E>, user: User, id: Id) {
    && Spread(s.db, user, id)
    && forall w :: Holds(s, w) && s.attempts[w].req.user == user ==> Obeying(s.attempts[w].phase, s.db.memories[id].record.sources)
  }

  lemma HolderKept<E>(s: Sys<E>, w: Owner, e: F.Event<E>)
    requires Inv(s) && Intent(s) && Acts(s, w, e) && Holds(s, w)
    ensures var v, v' := View(s, w), F.Step(View(s, w), e); F.PhaseInv(v) && F.PhaseInv(v') && F.Careful(v, v') && Prepared(v) && Base(v)
    ensures Consistent(Attempt(s.attempts[w].req, View(s, w).phase))
  {
    hide F.Step, F.PhaseInv, F.CheckpointsInv, F.Explained, Inv, Intent, F.Careful, Prepared, Base;
    HolderInv(s, w);
    IntentView(s, w);
    ActsMeans(s, w, e);
    F.StepKept(View(s, w), e);
    F.StepCareful(View(s, w), e);
  }

  lemma ActKeepsKey<E>(s: Sys<E>, w: Owner, e: F.Event<E>, user: User, id: Id)
    requires Inv(s) && Intent(s) && KeyKept(s, user, id) && Acts(s, w, e) && Holds(s, w)
    ensures KeyKept(Step(s, Act(w, e)), user, id)
  {
    hide F.Step, Inv, Intent, Obeying, Spread, F.PhaseInv, Prepared, Base, SameFor, F.Careful, Consistent, Still;
    var v, v', req, s' := View(s, w), F.Step(View(s, w), e), s.attempts[w].req, Step(s, Act(w, e));
    HolderKept(s, w, e);
    ActsMeans(s, w, e);
    SpreadRow(s.db, user, id);
    if req.user == user {
      ActSpread(v, e, user, id);
      SpreadAll(s.db, user, id);
      ActObeying(v, e, req, s.db.memories[id].record.sources);
    } else {
      ActElsewhere(v, e, req, user);
      SameIsStill(v, v', user);
      SpreadStill(v, v', user, id);
    }
    SpreadRow(s'.db, user, id);
    forall u | Holds(s', u) && s'.attempts[u].req.user == user
      ensures Obeying(s'.attempts[u].phase, s'.db.memories[id].record.sources)
    {
      if u != w {
        assert Holds(s, u);
        HoldersDiffer(s, w, u);
      }
    }
  }

  lemma SpreadRow<E>(db: Db<E>, user: User, id: Id)
    requires Spread(db, user, id)
    ensures id in db.memories
  {
  }

  lemma SpreadAll<E>(db: Db<E>, user: User, id: Id)
    requires Spread(db, user, id)
    ensures AllRedacted(db, user, db.memories[id].record.sources)
  {
  }

  lemma EnvKeepsKey<E>(s: Sys<E>, env: Runs.Event<E>, user: User, id: Id)
    requires KeyKept(s, user, id) && F.EnvAllowed(env)
    ensures KeyKept(Step(s, Env(env)), user, id)
  {
    hide F.Step, Runs.Step, F.EnvAllowed, Obeying, F.Careful, Still;
    var v, s' := F.Sys(s.db, s.checkpoints, F.Idle), Step(s, Env(env));
    EnvIsStill(s.db, env, user);
    F.EnvCareful(v, env);
    EnvView(v, env);
    SpreadStill(v, v.(db := s'.db), user, id);
    hide Spread;
    assert forall u :: Holds(s', u) ==> Holds(s, u);
  }

  lemma QuietKeepsKey<E>(s: Sys<E>, s': Sys<E>, user: User, id: Id)
    requires KeyKept(s, user, id) && s'.db == s.db
    requires forall u :: Holds(s', u) ==>
               s'.attempts[u].phase.Idle? || s'.attempts[u].phase.Stopped? || (Holds(s, u) && s'.attempts[u] == s.attempts[u])
    ensures KeyKept(s', user, id)
  {
    hide Spread, F.Shares;
    SpreadRow(s.db, user, id);
  }

  lemma StepKeepsKey<E>(s: Sys<E>, e: Event<E>, user: User, id: Id)
    requires Inv(s) && Intent(s) && KeyKept(s, user, id) && OnTime(s, e)
    ensures KeyKept(Step(s, e), user, id)
  {
    hide Inv, Intent, KeyKept, F.Step, Runs.Step, F.EnvAllowed;
    if e.Act? && Acts(s, e.w, e.e) {
      if Holds(s, e.w) {
        ActKeepsKey(s, e.w, e.e, user, id);
      } else {
        ActsMeans(s, e.w, e.e);
        ReadsOnly(View(s, e.w), e.e);
        QuietKeepsKey(s, Step(s, e), user, id);
      }
    } else if e.Env? && F.EnvAllowed(e.env) {
      EnvKeepsKey(s, e.env, user, id);
    } else {
      QuietKeepsKey(s, Step(s, e), user, id);
    }
  }

  /** A redaction that has spread stays spread over every run without late writes. */
  lemma {:induction false} SpreadStays<E>(s: Sys<E>, events: seq<Event<E>>, user: User, id: Id)
    requires Inv(s) && Intent(s) && KeyKept(s, user, id) && AllOnTime(s, events)
    ensures KeyKept(Run(s, events), user, id)
  {
    hide Inv, Intent, KeyKept, Step, OnTime;
    if events != [] {
      SpreadStays(s, events[..|events| - 1], user, id);
      RunInv(s, events[..|events| - 1]);
      StepKeepsKey(Run(s, events[..|events| - 1]), events[|events| - 1], user, id);
    }
  }

  // ---- Redacting cascades of all attempts ----

  ghost predicate AllReaching<E>(s: Sys<E>) {
    forall w :: Holds(s, w) ==> Reaching(View(s, w), s.attempts[w].req)
  }

  lemma OtherReaching<E>(s: Sys<E>, s': Sys<E>, u: Owner)
    requires Inv(s') && Intent(s) && AllReaching(s) && Holds(s, u) && Holds(s', u) && s'.attempts[u] == s.attempts[u]
    requires Still(s.db, s'.db, s.attempts[u].req.user)
    ensures Reaching(View(s', u), s.attempts[u].req)
  {
    hide F.PhaseInv, Inv, Intent, Reaching, Still;
    HolderView(s', u);
    ConsistentAttempt(s, u);
    ReachingStill(View(s, u), View(s', u), s.attempts[u].req);
  }

  lemma StepReaching<E>(s: Sys<E>, e: Event<E>)
    requires Inv(s) && Intent(s) && AllReaching(s) && OnTime(s, e)
    ensures AllReaching(Step(s, e))
  {
    hide F.Step, Runs.Step, F.EnvAllowed, Inv, Intent, Reaching, F.PhaseInv, Prepared, Base, SameFor, F.Careful, Consistent, Still;
    StepInv(s, e);
    var s' := Step(s, e);
    forall u | Holds(s', u)
      ensures Reaching(View(s', u), s'.attempts[u].req)
    {
      if u !in s.attempts {
        FreshAttempt(s, e, u);
        FreshReaching(View(s', u), s'.attempts[u].req);
      } else {
        HeldBefore(s, e, u);
        if e.Act? && Acts(s, e.w, e.e) {
          ActsMeans(s, e.w, e.e);
          if Holds(s, e.w) {
            HolderKept(s, e.w, e.e);
            if u == e.w {
              ActReaching(View(s, u), e.e, s.attempts[u].req);
              assert View(s', u) == F.Step(View(s, u), e.e);
            } else {
              HoldersDiffer(s, e.w, u);
              ActElsewhere(View(s, e.w), e.e, s.attempts[e.w].req, s.attempts[u].req.user);
              SameIsStill(View(s, e.w), F.Step(View(s, e.w), e.e), s.attempts[u].req.user);
              OtherReaching(s, s', u);
            }
          } else {
            ReadsOnly(View(s, e.w), e.e);
            assert View(s', u) == View(s, u);
          }
        } else if e.Env? && F.EnvAllowed(e.env) {
          EnvIsStill(s.db, e.env, s.attempts[u].req.user);
          OtherReaching(s, s', u);
        } else {
          assert View(s', u) == View(s, u);
        }
      }
    }
  }

  lemma FreshReaching<E>(v: F.Sys<E>, req: F.Request)
    requires v.phase.Idle? || v.phase.Stopped?
    ensures Reaching(v, req)
  {
  }

  lemma {:induction false} ReachingAlways<E>(s: Sys<E>, events: seq<Event<E>>)
    requires Start(s) && AllOnTime(s, events)
    ensures Inv(Run(s, events)) && Intent(Run(s, events)) && AllReaching(Run(s, events))
  {
    hide Inv, Intent, AllReaching, Step, OnTime;
    StartHolds(s);
    if events == [] {
      NoneReaching(s);
    } else {
      var before := events[..|events| - 1];
      ReachingAlways(s, before);
      RunInv(s, events);
      StepReaching(Run(s, before), events[|events| - 1]);
    }
  }

  lemma NoneReaching<E>(s: Sys<E>)
    requires Start(s)
    ensures AllReaching(s)
  {
  }

  /** The step completes the attempt's forget. */
  predicate Completes<E>(s: Sys<E>, w: Owner, outcome: Result<seq<F.Receipt>, string>) {
    && Acts(s, w, F.Settle(outcome))
    && ((s.attempts[w].phase.Propagating? && F.OutcomeFits(s.attempts[w].phase, outcome)) || (s.attempts[w].phase.Updated? && outcome.Failure?))
    && F.Settled(s.attempts[w].phase.c, outcome).completed
  }

  lemma SettledKey<E>(s: Sys<E>, w: Owner, outcome: Result<seq<F.Receipt>, string>)
    requires Inv(s) && Intent(s) && AllReaching(s) && Holds(s, w) && Completes(s, w, outcome) && s.attempts[w].req.redact
    ensures KeyKept(Step(s, Act(w, F.Settle(outcome))), s.attempts[w].req.user, s.attempts[w].req.id)
  {
    hide Inv, Intent, Reaching, F.PhaseInv, Prepared, Base, F.Careful, Spread, F.Settled;
    var req, s' := s.attempts[w].req, Step(s, Act(w, F.Settle(outcome)));
    HolderKept(s, w, F.Settle(outcome));
    SettleSpreads(View(s, w), outcome, req);
    SettlePhase(View(s, w), outcome);
    hide F.Step;
    SpreadRow(s'.db, req.user, req.id);
    forall u | Holds(s', u) && s'.attempts[u].req.user == req.user
      ensures Obeying(s'.attempts[u].phase, s'.db.memories[req.id].record.sources)
    {
      if u != w {
        HoldersDiffer(s', w, u);
      }
    }
  }

  lemma SettlePhase<E>(v: F.Sys<E>, outcome: Result<seq<F.Receipt>, string>)
    requires (v.phase.Propagating? && F.OutcomeFits(v.phase, outcome)) || (v.phase.Updated? && outcome.Failure?)
    ensures F.Step(v, F.Settle(outcome)).phase.Answered?
  {
  }

  /**
   A redacting forget that completes in time has left its row and every row of the user that shares a
   source with it redacted, and no run without late writes takes that back.
   */
  lemma RedactingForgetSpreads<E>(start: Sys<E>, events: seq<Event<E>>, w: Owner, outcome: Result<seq<F.Receipt>, string>, later: seq<Event<E>>)
    requires Start(start) && AllOnTime(start, events)
    requires var s := Run(start, events); Holds(s, w) && Completes(s, w, outcome) && s.attempts[w].req.redact
    requires AllOnTime(Step(Run(start, events), Act(w, F.Settle(outcome))), later)
    ensures var s := Run(start, events); var end := Run(Step(s, Act(w, F.Settle(outcome))), later);
            Spread(end.db, s.attempts[w].req.user, s.attempts[w].req.id)
  {
    hide Inv, Intent, AllReaching, Step, AllOnTime, Run, Completes, Spread;
    var s := Run(start, events);
    ReachingAlways(start, events);
    SettledKey(s, w, outcome);
    StepInv(s, Act(w, F.Settle(outcome)));
    StepIntent(s, Act(w, F.Settle(outcome)));
    SpreadStays(Step(s, Act(w, F.Settle(outcome))), later, s.attempts[w].req.user, s.attempts[w].req.id);
  }

  // ---- What checkpoints promise ----

  /** The checkpoint is completed and speaks of a redaction. */
  predicate Promises(checkpoints: map<(User, Id), F.Checkpoint>, user: User, id: Id) {
    (user, id) in checkpoints && checkpoints[(user, id)].completed && checkpoints[(user, id)].redaction.Some?
  }

  function Stored(checkpoints: map<(User, Id), F.Checkpoint>, user: User, id: Id): Option<F.Checkpoint> {
    if (user, id) in checkpoints then Some(checkpoints[(user, id)]) else None
  }

  /** A plain request takes over an unfinished redaction. */
  predicate TakesOver(req: F.Request, existing: Option<F.Checkpoint>) {
    !req.redact && existing.Some? && !existing.value.completed && existing.value.redaction.Some?
  }

  /** The step does not decide to do that. */
  predicate TakesNone<E>(s: Sys<E>, e: Event<E>) {
    e.Act? && e.e.Decide? && Acts(s, e.w, e.e) && s.attempts[e.w].phase.Deciding? ==> !TakesOver(s.attempts[e.w].phase.req, s.attempts[e.w].phase.existing)
  }

  predicate NeverTakes<E>(s: Sys<E>, events: seq<Event<E>>) {
    events != [] ==>
      NeverTakes(s, events[..|events| - 1]) && TakesNone(Run(s, events[..|events| - 1]), events[|events| - 1])
  }

  /** The attempt's checkpoint speaks of a redaction only if the request asks for one. */
  predicate AskedFor(phase: F.Phase, req: F.Request) {
    match phase
    case Intending(_, _, c) => c.redaction.Some? ==> req.redact
    case Marking(_, _, c, _) => c.redaction.Some? ==> req.redact
    case Updating(_, _, c) => c.redaction.Some? ==> req.redact
    case Updated(_, c) => c.redaction.Some? ==> req.redact
    case Propagating(_, c, _, _, _) => c.redaction.Some? ==> req.redact
    case _ => true
  }

  lemma ActAsked<E>(v: F.Sys<E>, e: F.Event<E>, req: F.Request)
    requires AskedFor(v.phase, req) && Consistent(Attempt(req, v.phase)) && !e.Env?
    requires e.Decide? && v.phase.Deciding? ==> !TakesOver(v.phase.req, v.phase.existing)
    ensures AskedFor(F.Step(v, e).phase, req)
  {
    hide F.Protect, F.Shares, F.Settled, F.SoftDelete, F.RedactIf, Commit, CommitAdmits;
  }

  /** A checkpoint comes to promise a redaction only when its attempt completes. */
  lemma OnlySettles<E>(v: F.Sys<E>, e: F.Event<E>, user: User, id: Id)
    requires F.PhaseInv(v) && Prepared(v) && !e.Env? && Promises(F.Step(v, e).checkpoints, user, id)
    requires Stored(v.checkpoints, user, id) != Stored(F.Step(v, e).checkpoints, user, id)
    ensures e.Settle? && ((v.phase.Propagating? && F.OutcomeFits(v.phase, e.outcome)) || (v.phase.Updated? && e.outcome.Failure?))
    ensures (user, id) == F.Key(v.phase.req) && F.Settled(v.phase.c, e.outcome).completed && v.phase.c.redaction.Some?
  {
    hide Commit, CommitAdmits, F.MergeReceipts, F.AllAcknowledged, F.Protect, F.SoftDelete, F.Shares, Blank, F.Live, F.Advances, F.Forgotten;
  }

  ghost predicate Track<E>(s: Sys<E>) {
    && (forall user, id :: Promises(s.checkpoints, user, id) ==> KeyKept(s, user, id))
    && (forall w :: Holds(s, w) ==> AskedFor(s.attempts[w].phase, s.attempts[w].req))
  }

  /** A promise that is new, or changed, is kept by the attempt that makes it. */
  lemma PromiseMade<E>(s: Sys<E>, e: Event<E>, user: User, id: Id)
    requires Inv(s) && Intent(s) && AllReaching(s) && Track(s) && OnTime(s, e)
    requires Promises(Step(s, e).checkpoints, user, id) && Stored(s.checkpoints, user, id) != Stored(Step(s, e).checkpoints, user, id)
    ensures KeyKept(Step(s, e), user, id)
  {
    hide F.Step, Runs.Step, F.EnvAllowed, Inv, Intent, AllReaching, Spread, Obeying, F.PhaseInv, Prepared, Base, F.Careful;
    assert e.Act? && Acts(s, e.w, e.e);
    ActsMeans(s, e.w, e.e);
    if !Writes(e.e) {
      ReadsOnly(View(s, e.w), e.e);
      assert false;
    }
    HolderKept(s, e.w, e.e);
    OnlySettles(View(s, e.w), e.e, user, id);
    SettledKey(s, e.w, e.e.outcome);
  }

  lemma StepAsked<E>(s: Sys<E>, e: Event<E>, w: Owner)
    requires Intent(s) && (forall u :: Holds(s, u) ==> AskedFor(s.attempts[u].phase, s.attempts[u].req)) && TakesNone(s, e) && Holds(Step(s, e), w)
    ensures AskedFor(Step(s, e).attempts[w].phase, Step(s, e).attempts[w].req)
  {
    hide F.Step, Runs.Step, F.EnvAllowed, Intent, AskedFor, Consistent;
    if w !in s.attempts {
      FreshAttempt(s, e, w);
      FreshAsked(Step(s, e).attempts[w].phase, Step(s, e).attempts[w].req);
    } else {
      HeldBefore(s, e, w);
      if e.Act? && e.w == w && Acts(s, w, e.e) {
        ActsMeans(s, w, e.e);
        ConsistentAttempt(s, w);
        assert Attempt(s.attempts[w].req, View(s, w).phase) == s.attempts[w];
        ActAsked(View(s, w), e.e, s.attempts[w].req);
      }
    }
  }

  lemma FreshAsked(phase: F.Phase, req: F.Request)
    requires phase.Idle? || phase.Stopped?
    ensures AskedFor(phase, req)
  {
  }

  lemma StepTracks<E>(s: Sys<E>, e: Event<E>)
    requires Inv(s) && Intent(s) && AllReaching(s) && Track(s) && OnTime(s, e) && TakesNone(s, e)
    ensures Track(Step(s, e))
  {
    hide Step, Inv, Intent, AllReaching, KeyKept, AskedFor, OnTime, TakesNone;
    forall user, id | Promises(Step(s, e).checkpoints, user, id)
      ensures KeyKept(Step(s, e), user, id)
    {
      if Stored(s.checkpoints, user, id) == Stored(Step(s, e).checkpoints, user, id) {
        assert Promises(s.checkpoints, user, id);
        StepKeepsKey(s, e, user, id);
      } else {
        PromiseMade(s, e, user, id);
      }
    }
    forall w | Holds(Step(s, e), w)
      ensures AskedFor(Step(s, e).attempts[w].phase, Step(s, e).attempts[w].req)
    {
      StepAsked(s, e, w);
    }
  }

  lemma {:induction false} TrackAlways<E>(s: Sys<E>, events: seq<Event<E>>)
    requires Start(s) && AllOnTime(s, events) && NeverTakes(s, events)
    ensures Track(Run(s, events))
  {
    hide Inv, Intent, AllReaching, Track, Step, OnTime, TakesNone;
    if events == [] {
      StartTracks(s);
    } else {
      var before, e := events[..|events| - 1], events[|events| - 1];
      TrackAlways(s, before);
      ReachingAlways(s, before);
      StepTracks(Run(s, before), e);
    }
  }

  lemma StartTracks<E>(s: Sys<E>)
    requires Start(s)
    ensures Track(s)
  {
  }

  /**
   Over every run without late writes in which no plain request takes over an unfinished redaction, a
   completed checkpoint that speaks of a redaction finds its row, and every row that shares a source with
   it, redacted.
   */
  lemma PromisesKept<E>(s: Sys<E>, events: seq<Event<E>>, user: User, id: Id)
    requires Start(s) && AllOnTime(s, events) && NeverTakes(s, events)
    ensures Promises(Run(s, events).checkpoints, user, id) ==> Spread(Run(s, events).db, user, id)
  {
    hide Step, AllOnTime, NeverTakes, Run, Promises, Spread;
    TrackAlways(s, events);
  }
}
