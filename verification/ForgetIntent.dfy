/**
 What an attempt's steps keep whoever else writes, even an attempt whose lease has lapsed: the intent
 is durable before the record changes, a row that is inactive stays inactive, and a completed
 checkpoint has every receipt acknowledged and an inactive row.
 */
module ForgetIntent {
  import opened Wrappers
  import opened Memories
  import opened Forget
  import Runs = MemoryRuns

  predicate Blank(r: Record) {
    r.content == "[redacted]" && r.entities == [] && r.tags == [] && r.embedding.vector.None?
  }

  predicate BlankIfRedacted(r: Record) {
    r.status.Redacted? ==> Blank(r)
  }

  predicate BlankRows<E>(db: Db<E>) {
    forall id :: id in db.memories ==> BlankIfRedacted(db.memories[id].record)
  }

  /** The user's row is there and inactive. */
  predicate Dead<E>(db: Db<E>, user: User, id: Id) {
    id in db.memories && db.memories[id].record.user == user && Inactive(db.memories[id].record)
  }

  predicate Sealed<E>(db: Db<E>, user: User, id: Id, c: Checkpoint) {
    c.completed ==> AllAcknowledged(c.receipts) && Dead(db, user, id)
  }

  ghost predicate CompletedSealed<E>(s: Sys<E>) {
    forall user, id :: (user, id) in s.checkpoints ==> Sealed(s.db, user, id, s.checkpoints[(user, id)])
  }

  predicate Own(req: Request, r: Record) {
    r.id == req.id && r.user == req.user && BlankIfRedacted(r)
  }

  predicate Listable(req: Request, listed: map<Id, Record>) {
    forall id :: id in listed ==> listed[id].id == id && listed[id].user == req.user && BlankIfRedacted(listed[id])
  }

  /** How far the intent is durable at each point of an attempt. */
  ghost predicate Prepared<E>(s: Sys<E>) {
    match s.phase
    case Idle => true
    case Stopped => true
    case Loading(req, existing) => existing.Some? ==> Sealed(s.db, req.user, req.id, existing.value)
    case Deciding(req, existing, r) => (existing.Some? ==> Sealed(s.db, req.user, req.id, existing.value)) && Own(req, r)
    case Intending(req, r, c) => Own(req, r) && !c.completed
    case Marking(req, r, c, done) =>
      && Own(req, r) && !c.completed && Key(req) in s.checkpoints && done <= |r.sources|
      && (forall i :: 0 <= i < done ==> (req.user, r.sources[i]) in s.db.tombstones)
    case Updating(req, r, c) =>
      && Own(req, r) && !c.completed && Key(req) in s.checkpoints && Marked(s.db, req.user, r.sources)
      && Inactive(r) && (req.redact ==> r.status.Redacted?)
    case Updated(req, c) => !c.completed && Key(req) in s.checkpoints && Dead(s.db, req.user, req.id)
    case Propagating(req, c, _, listed, _) =>
      !c.completed && Key(req) in s.checkpoints && Dead(s.db, req.user, req.id) && Listable(req, listed)
    case Answered(req, c) => Sealed(s.db, req.user, req.id, c)
  }

  /** What no step takes back: tombstones, checkpoints, rows with their owners, and that a row is inactive. */
  ghost predicate Lasting<E>(s: Sys<E>, s': Sys<E>) {
    && s.db.tombstones.Keys <= s'.db.tombstones.Keys
    && s.checkpoints.Keys <= s'.checkpoints.Keys
    && forall id :: id in s.db.memories ==>
         && id in s'.db.memories && s'.db.memories[id].record.user == s.db.memories[id].record.user
         && (Inactive(s.db.memories[id].record) ==> Inactive(s'.db.memories[id].record))
  }

  ghost predicate Base<E>(s: Sys<E>) {
    Keyed(s.db) && BlankRows(s.db) && CompletedSealed(s)
  }

  lemma PreparedLasts<E>(s: Sys<E>, s': Sys<E>)
    requires Lasting(s, s') && Prepared(s) && s'.phase == s.phase
    ensures Prepared(s')
  {
    hide AllAcknowledged, BlankIfRedacted;
  }

  lemma SealedLasts<E>(s: Sys<E>, s': Sys<E>)
    requires Lasting(s, s') && CompletedSealed(s) && s'.checkpoints == s.checkpoints
    ensures CompletedSealed(s')
  {
    hide AllAcknowledged;
  }

  // ---- The environment ----

  lemma EnvLasts<E>(s: Sys<E>, e: Runs.Event<E>)
    requires Base(s) && EnvAllowed(e)
    ensures Lasting(s, Step(s, Env(e))) && Base(Step(s, Env(e)))
  {
    hide Runs.Step, EnvAllowed, CompletedSealed, Blank;
    var s' := Step(s, Env(e));
    Runs.TombstonesStep(s.db, e);
    Runs.KeyedStep(s.db, e);
    forall id | id in s.db.memories
      ensures RowKept(s.db, s'.db, id)
    {
      EnvRow(s.db, e, id);
    }
    forall id | id in s'.db.memories
      ensures BlankIfRedacted(s'.db.memories[id].record)
    {
      if id in s.db.memories {
        EnvRow(s.db, e, id);
      } else {
        EnvNewRow(s.db, e, id);
      }
    }
    SealedLasts(s, s');
  }

  lemma EnvNewRow<E>(db: Db<E>, e: Runs.Event<E>, id: Id)
    requires EnvAllowed(e) && id !in db.memories && id in Runs.Step(db, e).memories
    ensures Runs.Step(db, e).memories[id].record.status.Active?
  {
  }

  // ---- The attempt ----

  /** A commit of an inactive record of the row's own user. */
  lemma CommitLasts<E>(s: Sys<E>, s': Sys<E>, logical: string, r: Record, evidence: E)
    requires Base(s) && s'.db == Commit(s.db, logical, r, evidence) && s'.checkpoints == s.checkpoints
    requires Inactive(r) && BlankIfRedacted(r)
    ensures Lasting(s, s') && Base(s')
    ensures CommitAdmits(s.db, logical, r) ==> r.id in s'.db.memories && s'.db.memories[r.id].record == r && Dead(s'.db, r.user, r.id)
  {
    hide CompletedSealed, Blank, RouteAdmits, Tombstoned, Storable;
    CommitRow(s.db, logical, r, evidence);
    if CommitAdmits(s.db, logical, r) && r.id in s.db.memories {
      CommitOwner(s.db, logical, r);
    }
    assert Lasting(s, s');
    SealedLasts(s, s');
  }

  lemma CommitOwner<E>(db: Db<E>, logical: string, r: Record)
    requires CommitAdmits(db, logical, r) && r.id in db.memories
    ensures db.memories[r.id].record.user == r.user
  {
  }

  lemma SaveLasts<E>(s: Sys<E>, s': Sys<E>, key: (User, Id), c: Checkpoint)
    requires Base(s) && s'.db == s.db && s'.checkpoints == s.checkpoints[key := c] && Sealed(s.db, key.0, key.1, c)
    ensures Lasting(s, s') && Base(s')
  {
    hide AllAcknowledged, BlankIfRedacted;
  }

  lemma DerivedBlank(r: Record, redact: bool, now: Stamp)
    requires BlankIfRedacted(r)
    ensures BlankIfRedacted(RedactIf(SoftDelete(r, now), redact, now))
  {
  }

  lemma MaskedOwn<E>(db: Db<E>, req: Request, existing: Option<Checkpoint>, r: Record, now: Stamp)
    requires Own(req, r)
    ensures Own(req, Protect(db, r)) && Own(req, Taken(existing, Protect(db, r), now))
    ensures Protect(db, r).sources == r.sources && Taken(existing, Protect(db, r), now).sources == r.sources
  {
  }

  lemma ReadPrepares<E>(s: Sys<E>, e: Event<E>)
    requires Base(s) && Prepared(s) && (e.Begin? || e.Load? || e.Decide? || e.Crash?)
    ensures Prepared(Step(s, e))
  {
    hide AllAcknowledged, Protect, SoftDelete, Blank;
    if e.Decide? && s.phase.Deciding? {
      MaskedOwn(s.db, s.phase.req, s.phase.existing, s.phase.r, e.now);
    }
  }

  lemma ListPrepares<E>(s: Sys<E>)
    requires Base(s) && Prepared(s)
    ensures Prepared(Step(s, List))
  {
    hide AllAcknowledged, Shares, Blank;
  }

  lemma IntentPrepares<E>(s: Sys<E>)
    requires Base(s) && Prepared(s)
    ensures Lasting(s, Step(s, SaveIntent)) && Base(Step(s, SaveIntent)) && Prepared(Step(s, SaveIntent))
  {
    hide Base;
    if s.phase.Intending? {
      SaveLasts(s, Step(s, SaveIntent), Key(s.phase.req), s.phase.c);
    }
  }

  lemma MarkPrepares<E>(s: Sys<E>)
    requires Base(s) && Prepared(s)
    ensures Lasting(s, Step(s, Mark)) && Base(Step(s, Mark)) && Prepared(Step(s, Mark))
  {
    hide AllAcknowledged, BlankIfRedacted;
  }

  lemma ResolvePrepares<E>(s: Sys<E>, now: Stamp)
    requires Base(s) && Prepared(s)
    ensures Lasting(s, Step(s, Resolve(now))) && Base(Step(s, Resolve(now))) && Prepared(Step(s, Resolve(now)))
  {
    hide Base, Blank;
    if s.phase.Marking? && s.phase.done == |s.phase.r.sources| {
      var c := ResolvedCheckpoint(s.phase.c, s.phase.r, s.phase.req.redact, now);
      DerivedRecord(s.phase.r, s.phase.req.redact, now);
      DerivedBlank(s.phase.r, s.phase.req.redact, now);
      SaveLasts(s, Step(s, Resolve(now)), Key(s.phase.req), c);
    }
  }

  lemma UpdatePrepares<E>(s: Sys<E>, logical: string, evidence: E)
    requires Base(s) && Prepared(s)
    ensures var s' := Step(s, Update(logical, evidence)); Lasting(s, s') && Base(s') && Prepared(s')
  {
    hide Base, Commit, CommitAdmits, Blank;
    if s.phase.Updating? {
      if CommitAdmits(s.db, logical, s.phase.r) {
        CommitLasts(s, Step(s, Update(logical, evidence)), logical, s.phase.r, evidence);
      } else {
        StopLasts(s, Step(s, Update(logical, evidence)));
      }
    }
  }

  lemma StopLasts<E>(s: Sys<E>, s': Sys<E>)
    requires Base(s) && s'.db == s.db && s'.checkpoints == s.checkpoints
    ensures Lasting(s, s') && Base(s')
  {
    hide AllAcknowledged, BlankIfRedacted;
  }

  lemma CascadePrepares<E>(s: Sys<E>, id: Id, now: Stamp, logical: string, evidence: E)
    requires Base(s) && Prepared(s)
    ensures var s' := Step(s, Cascade(id, now, logical, evidence)); Lasting(s, s') && Base(s') && Prepared(s')
  {
    hide Base, Commit, CommitAdmits, Blank;
    if s.phase.Propagating? && id in s.phase.listed {
      var derived := RedactIf(SoftDelete(s.phase.listed[id], now), s.phase.req.redact, now);
      DerivedRecord(s.phase.listed[id], s.phase.req.redact, now);
      DerivedBlank(s.phase.listed[id], s.phase.req.redact, now);
      CommitLasts(s, Step(s, Cascade(id, now, logical, evidence)), logical, derived, evidence);
    }
  }

  lemma ScrubPrepares<E>(s: Sys<E>, id: Id)
    requires Base(s) && Prepared(s)
    ensures Lasting(s, Step(s, Scrub(id))) && Base(Step(s, Scrub(id))) && Prepared(Step(s, Scrub(id)))
  {
    hide AllAcknowledged, BlankIfRedacted;
  }

  lemma SettledSealed<E>(db: Db<E>, req: Request, c: Checkpoint, outcome: Result<seq<Receipt>, string>)
    requires !c.completed && Dead(db, req.user, req.id)
    ensures Sealed(db, req.user, req.id, Settled(c, outcome))
  {
    hide MergeReceipts;
  }

  lemma SettlePrepares<E>(s: Sys<E>, outcome: Result<seq<Receipt>, string>)
    requires Base(s) && Prepared(s)
    ensures Lasting(s, Step(s, Settle(outcome))) && Base(Step(s, Settle(outcome))) && Prepared(Step(s, Settle(outcome)))
  {
    hide Base, Settled, Sealed, Listable, Dead;
    if (s.phase.Propagating? && OutcomeFits(s.phase, outcome)) || (s.phase.Updated? && outcome.Failure?) {
      SettledSealed(s.db, s.phase.req, s.phase.c, outcome);
      SaveLasts(s, Step(s, Settle(outcome)), Key(s.phase.req), Settled(s.phase.c, outcome));
    }
  }

  /** Every step of an attempt keeps what lasts, and its own intent comes first. */
  lemma StepPrepares<E>(s: Sys<E>, e: Event<E>)
    requires Base(s) && Prepared(s) && !e.Env?
    ensures Lasting(s, Step(s, e)) && Base(Step(s, e)) && Prepared(Step(s, e))
  {
    hide Base, Prepared, Lasting, Commit, CommitAdmits;
    match e {
      case SaveIntent => IntentPrepares(s);
      case Mark => MarkPrepares(s);
      case Resolve(now) => ResolvePrepares(s, now);
      case Update(logical, evidence) => UpdatePrepares(s, logical, evidence);
      case List =>
        ListPrepares(s);
        StopLasts(s, Step(s, e));
      case Cascade(id, now, logical, evidence) => CascadePrepares(s, id, now, logical, evidence);
      case Scrub(id) => ScrubPrepares(s, id);
      case Settle(outcome) => SettlePrepares(s, outcome);
      case _ =>
        ReadPrepares(s, e);
        StopLasts(s, Step(s, e));
    }
  }
}
