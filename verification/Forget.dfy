/**
 The forget workflow as one attempt runs it: a checkpoint and the source tombstones are durable
 before the record changes, and an attempt that stops anywhere is resumed from them.

 Each read and each durable write is one step, the attempt may stop between any two, and between any
 two ingestion, graph replay, access updates and cutovers may run. Inactive rows are written by
 forgetting only. Attempts of several workers, and the lease they contend for, are in Attempts.
 */
module Forget {
  import opened Wrappers
  import opened Memories
  import Runs = MemoryRuns

  datatype Request = Request(user: User, id: Id, redact: bool)

  datatype Receipt = Receipt(backend: string, operation: string, acknowledged: bool)

  datatype Change = Change(from: Status, to: Status)

  datatype Checkpoint = Checkpoint(
    transition: Change, redaction: Option<Change>, receipts: seq<Receipt>,
    completed: bool, attempts: nat, lastError: Option<string>)

  const MAX_ATTEMPTS: nat := 0xFFFF_FFFF

  datatype Phase =
    | Idle
    | Stopped
    | Loading(req: Request, existing: Option<Checkpoint>)
    | Deciding(req: Request, existing: Option<Checkpoint>, r: Record)
    | Intending(req: Request, r: Record, c: Checkpoint)
    | Marking(req: Request, r: Record, c: Checkpoint, done: nat)
    | Updating(req: Request, r: Record, c: Checkpoint)
    | Updated(req: Request, c: Checkpoint)
    | Propagating(req: Request, c: Checkpoint, sources: seq<Source>, listed: map<Id, Record>, failed: bool)
    | Answered(req: Request, c: Checkpoint)

  datatype Sys<E> = Sys(db: Db<E>, checkpoints: map<(User, Id), Checkpoint>, phase: Phase)

  datatype Event<E> =
    | Begin(req: Request)
    | Load
    | Decide(now: Stamp)
    | SaveIntent
    | Mark
    | Resolve(now: Stamp)
    | Update(logical: string, evidence: E)
    | List
    | Cascade(id: Id, now: Stamp, logical: string, evidence: E)
    | Scrub(id: Id)
    | Settle(outcome: Result<seq<Receipt>, string>)
    | Crash
    | Env(e: Runs.Event<E>)

  /** Reads of a record mask it by its source tombstones. */
  function Protect<E>(db: Db<E>, r: Record): Record {
    var hidden := if r.status.Active? && Tombstoned(db, r.user, r.sources) then r.(status := SoftDeleted) else r;
    if exists source :: source in r.sources && (r.user, source) in db.tombstones && db.tombstones[(r.user, source)].redact
    then Blanked(hidden)
    else hidden
  }

  predicate Inactive(r: Record) {
    r.status.SoftDeleted? || r.status.Redacted?
  }

  predicate CompletedFor(c: Checkpoint, req: Request, r: Record) {
    c.completed && (!req.redact || c.redaction.Some? || r.status.Redacted?)
  }

  function Fresh(r: Record): Checkpoint {
    Checkpoint(if Inactive(r) then Change(r.status, r.status) else Change(r.status, SoftDeleted), None, [], false, 0, None)
  }

  function SoftDelete(r: Record, now: Stamp): Record {
    if Inactive(r) then r else Transition(r, SoftDeleted, now)
  }

  function RedactIf(r: Record, redact: bool, now: Stamp): Record {
    if redact && r.status.SoftDeleted? then Transition(r, Redacted, now) else r
  }

  /** The record an attempt goes on with: a first attempt already carries the soft deletion. */
  function Taken(existing: Option<Checkpoint>, masked: Record, now: Stamp): Record {
    if existing.Some? then masked else SoftDelete(masked, now)
  }

  function Resumed(existing: Option<Checkpoint>, masked: Record): Checkpoint {
    if existing.Some? then existing.value else Fresh(masked)
  }

  function Stored<E>(s: Sys<E>, req: Request): Option<Checkpoint> {
    if Key(req) in s.checkpoints then Some(s.checkpoints[Key(req)]) else None
  }

  function Next(c: Checkpoint): Checkpoint {
    c.(attempts := if c.attempts < MAX_ATTEMPTS then c.attempts + 1 else c.attempts, completed := false)
  }

  function ResolvedCheckpoint(c: Checkpoint, r: Record, redact: bool, now: Stamp): Checkpoint {
    var deleted := if Inactive(r) then c else c.(transition := Change(r.status, SoftDeleted));
    if redact && SoftDelete(r, now).status.SoftDeleted? then deleted.(redaction := Some(Change(SoftDeleted, Redacted))) else deleted
  }

  /** Receipts replace the previous one of the same backend and operation, others are appended. */
  function MergeReceipt(receipts: seq<Receipt>, receipt: Receipt): seq<Receipt> {
    if receipts == [] then [receipt]
    else if receipts[0].backend == receipt.backend && receipts[0].operation == receipt.operation then [receipt] + receipts[1..]
    else [receipts[0]] + MergeReceipt(receipts[1..], receipt)
  }

  function MergeReceipts(receipts: seq<Receipt>, incoming: seq<Receipt>): seq<Receipt>
    decreases |incoming|
  {
    if incoming == [] then receipts else MergeReceipts(MergeReceipt(receipts, incoming[0]), incoming[1..])
  }

  predicate AllAcknowledged(receipts: seq<Receipt>) {
    receipts != [] && forall i :: 0 <= i < |receipts| ==> receipts[i].acknowledged
  }

  function Settled(c: Checkpoint, outcome: Result<seq<Receipt>, string>): Checkpoint {
    match outcome
    case Success(incoming) =>
      var merged := c.(receipts := MergeReceipts(c.receipts, incoming));
      if AllAcknowledged(merged.receipts) then merged.(completed := true, lastError := None)
      else merged.(lastError := Some("one or more stores have not acknowledged forget propagation"))
    case Failure(error) => c.(lastError := Some(error))
  }

  /** Receipts come back only after the whole list; the last one is the canonical store's, failed if a listed row was refused. */
  predicate OutcomeFits(phase: Phase, outcome: Result<seq<Receipt>, string>)
    requires phase.Propagating?
  {
    outcome.Success? ==>
      && phase.listed == map[] && outcome.value != []
      && (phase.failed ==> !outcome.value[|outcome.value| - 1].acknowledged)
  }

  predicate Shares(sources: seq<Source>, r: Record) {
    exists source :: source in r.sources && source in sources
  }

  /** Everyone but the worker: never an inactive record. */
  predicate EnvAllowed<E>(e: Runs.Event<E>) {
    match e
    case Committed(_, r, _) => r.status.Active?
    case Upserted(r) => r.status.Active?
    case _ => true
  }

  function Key(req: Request): (User, Id) {
    (req.user, req.id)
  }

  function Step<E>(s: Sys<E>, e: Event<E>): Sys<E> {
    match e
    case Begin(req) => if s.phase.Idle? then s.(phase := Loading(req, Stored(s, req))) else s
    case Load =>
      if !s.phase.Loading? then s
      else
        var req := s.phase.req;
        if req.id in s.db.memories && s.db.memories[req.id].record.user == req.user then
          s.(phase := Deciding(req, s.phase.existing, s.db.memories[req.id].record))
        else s.(phase := Stopped)
    case Decide(now) =>
      if !s.phase.Deciding? then s
      else
        var masked := Protect(s.db, s.phase.r);
        var c, r := Resumed(s.phase.existing, masked), Taken(s.phase.existing, masked, now);
        if CompletedFor(c, s.phase.req, r) then s.(phase := Answered(s.phase.req, c))
        else s.(phase := Intending(s.phase.req, r, Next(c)))
    case SaveIntent =>
      if s.phase.Intending? then
        s.(checkpoints := s.checkpoints[Key(s.phase.req) := s.phase.c], phase := Marking(s.phase.req, s.phase.r, s.phase.c, 0))
      else s
    case Mark =>
      if s.phase.Marking? && s.phase.done < |s.phase.r.sources| then
        var source := s.phase.r.sources[s.phase.done];
        s.(db := s.db.(tombstones := s.db.tombstones[(s.phase.req.user, source) := Tombstone(s.phase.req.id, s.phase.req.redact)]),
           phase := s.phase.(done := s.phase.done + 1))
      else s
    case Resolve(now) =>
      if s.phase.Marking? && s.phase.done == |s.phase.r.sources| then
        var c := ResolvedCheckpoint(s.phase.c, s.phase.r, s.phase.req.redact, now);
        var r := RedactIf(SoftDelete(s.phase.r, now), s.phase.req.redact, now);
        s.(checkpoints := s.checkpoints[Key(s.phase.req) := c], phase := Updating(s.phase.req, r, c))
      else s
    case Update(logical, evidence) =>
      if !s.phase.Updating? then s
      else if CommitAdmits(s.db, logical, s.phase.r) then
        s.(db := Commit(s.db, logical, s.phase.r, evidence), phase := Updated(s.phase.req, s.phase.c))
      else s.(phase := Stopped)
    case List =>
      if s.phase.Updated? && s.phase.req.id in s.db.memories then
        var sources := s.db.memories[s.phase.req.id].record.sources;
        s.(phase := Propagating(s.phase.req, s.phase.c, sources,
             map id | id in s.db.memories && id != s.phase.req.id && s.db.memories[id].record.user == s.phase.req.user
                      && Shares(sources, s.db.memories[id].record) :: s.db.memories[id].record, false))
      else s
    case Cascade(id, now, logical, evidence) =>
      if s.phase.Propagating? && id in s.phase.listed then
        var derived := RedactIf(SoftDelete(s.phase.listed[id], now), s.phase.req.redact, now);
        s.(db := Commit(s.db, logical, derived, evidence),
           phase := s.phase.(listed := s.phase.listed - {id}, failed := s.phase.failed || !CommitAdmits(s.db, logical, derived)))
      else s
    case Scrub(id) =>
      if s.phase.Propagating? then s.(db := s.db.(plans := s.db.plans - {(s.phase.req.user, id)})) else s
    case Settle(outcome) =>
      if (s.phase.Propagating? && OutcomeFits(s.phase, outcome)) || (s.phase.Updated? && outcome.Failure?) then
        var c := Settled(s.phase.c, outcome);
        s.(checkpoints := s.checkpoints[Key(s.phase.req) := c], phase := Answered(s.phase.req, c))
      else s
    case Crash => s.(phase := Stopped)
    case Env(env) => if EnvAllowed(env) then s.(db := Runs.Step(s.db, env)) else s
  }

  function Run<E>(s: Sys<E>, events: seq<Event<E>>): Sys<E> {
    if events == [] then s
    else Step(Run(s, events[..|events| - 1]), events[|events| - 1])
  }

  // ---- Invariants ----

  function Rank(status: Status): nat {
    match status
    case Active => 0
    case Archived => 1
    case SoftDeleted => 2
    case Redacted => 3
  }

  predicate Marked<E>(db: Db<E>, user: User, sources: seq<Source>) {
    forall source :: source in sources ==> (user, source) in db.tombstones
  }

  /** Writing `r` over its row can only advance the status, and keeps the sources of a row that is no longer active. */
  predicate Advances<E>(db: Db<E>, user: User, id: Id, r: Record) {
    && r.id == id && r.user == user
    && id in db.memories && db.memories[id].record.user == user
    && Rank(db.memories[id].record.status) <= Rank(r.status)
    && (!db.memories[id].record.status.Active? ==> db.memories[id].record.sources == r.sources)
  }

  /** The row is forgotten, and the durable intent for it is in place: the checkpoint and every source tombstone. */
  predicate Forgotten<E>(s: Sys<E>, user: User, id: Id) {
    && id in s.db.memories && s.db.memories[id].record.user == user && Inactive(s.db.memories[id].record)
    && (user, id) in s.checkpoints
    && Marked(s.db, user, s.db.memories[id].record.sources)
  }

  /** The user's row still carries one of the sources without being forgotten. */
  predicate Live<E>(db: Db<E>, user: User, sources: seq<Source>, id: Id) {
    id in db.memories && db.memories[id].record.user == user && Shares(sources, db.memories[id].record) && !Inactive(db.memories[id].record)
  }

  /** A completed checkpoint: acknowledged by every store that was asked, row forgotten, and no row of the user left with one of its sources. */
  ghost predicate Completed<E>(s: Sys<E>, user: User, id: Id) {
    && (user, id) in s.checkpoints && AllAcknowledged(s.checkpoints[(user, id)].receipts)
    && Forgotten(s, user, id)
    && (forall other :: other in s.db.memories ==> !Live(s.db, user, s.db.memories[id].record.sources, other))
  }

  ghost predicate CheckpointsInv<E>(s: Sys<E>) {
    forall user, id :: (user, id) in s.checkpoints && s.checkpoints[(user, id)].completed ==> Completed(s, user, id)
  }

  /** No row is ever forgotten without a durable trace: its own intent, or a tombstone on one of its sources. */
  ghost predicate Explained<E>(s: Sys<E>) {
    forall id :: id in s.db.memories && Inactive(s.db.memories[id].record) ==>
      var r := s.db.memories[id].record;
      Forgotten(s, r.user, id) || Tombstoned(s.db, r.user, r.sources)
  }

  /** The record read is the row's, but for rewrites of a row that is still active. */
  predicate Follows<E>(db: Db<E>, user: User, id: Id, r: Record) {
    && r.id == id && r.user == user
    && id in db.memories && db.memories[id].record.user == user
    && (db.memories[id].record.status.Active? <==> r.status.Active?)
    && (!r.status.Active? ==> db.memories[id].record == r)
  }

  ghost predicate MarkingInv<E>(s: Sys<E>, req: Request, r: Record, c: Checkpoint, done: nat) {
    && Advances(s.db, req.user, req.id, r) && !c.completed
    && Key(req) in s.checkpoints && done <= |r.sources|
    && (forall i :: 0 <= i < done ==> (req.user, r.sources[i]) in s.db.tombstones)
  }

  ghost predicate UpdatingInv<E>(s: Sys<E>, req: Request, r: Record, c: Checkpoint) {
    && Advances(s.db, req.user, req.id, r) && !c.completed
    && Key(req) in s.checkpoints && Marked(s.db, req.user, r.sources)
    && Inactive(r) && (req.redact ==> r.status.Redacted?)
  }

  ghost predicate UpdatedInv<E>(s: Sys<E>, req: Request, c: Checkpoint) {
    && Forgotten(s, req.user, req.id) && !c.completed
    && (req.redact ==> s.db.memories[req.id].record.status.Redacted?)
  }

  ghost predicate PropagatingInv<E>(s: Sys<E>, req: Request, c: Checkpoint, sources: seq<Source>, listed: map<Id, Record>, failed: bool) {
    && UpdatedInv(s, req, c)
    && sources == s.db.memories[req.id].record.sources && req.id !in listed
    && (forall id :: id in listed ==> Advances(s.db, req.user, id, listed[id]) && Shares(sources, listed[id]))
    && (failed || forall id :: id in s.db.memories && id !in listed ==> !Live(s.db, req.user, sources, id))
  }

  ghost predicate AnsweredInv<E>(s: Sys<E>, req: Request, c: Checkpoint) {
    c.completed ==>
      && Key(req) in s.checkpoints && s.checkpoints[Key(req)] == c
      && req.id in s.db.memories && s.db.memories[req.id].record.user == req.user
      && (req.redact ==> c.redaction.Some? || s.db.memories[req.id].record.status.Redacted?)
  }

  /** What the running attempt may rely on. */
  ghost predicate PhaseInv<E>(s: Sys<E>) {
    match s.phase
    case Idle => true
    case Stopped => true
    case Loading(req, existing) => existing == Stored(s, req)
    case Deciding(req, existing, r) => existing == Stored(s, req) && Follows(s.db, req.user, req.id, r)
    case Intending(req, r, c) => Advances(s.db, req.user, req.id, r) && !c.completed
    case Marking(req, r, c, done) => MarkingInv(s, req, r, c, done)
    case Updating(req, r, c) => UpdatingInv(s, req, r, c)
    case Updated(req, c) => UpdatedInv(s, req, c)
    case Propagating(req, c, sources, listed, failed) => PropagatingInv(s, req, c, sources, listed, failed)
    case Answered(req, c) => AnsweredInv(s, req, c)
  }

  // ---- Rows ----

  /** An environment step keeps the row's owner and whether it is active, and leaves a row that is not active alone. */
  predicate RowKept<E>(db: Db<E>, db': Db<E>, id: Id)
    requires id in db.memories
  {
    && id in db'.memories
    && db'.memories[id].record.user == db.memories[id].record.user
    && (db'.memories[id].record.status.Active? <==> db.memories[id].record.status.Active?)
    && (!db.memories[id].record.status.Active? ==> db'.memories[id].record == db.memories[id].record)
  }

  lemma WriteRow<E>(db: Db<E>, e: Runs.Event<E>, id: Id)
    requires EnvAllowed(e) && id in db.memories && (e.Committed? || e.Upserted?)
    ensures RowKept(db, Runs.Step(db, e), id)
  {
    hide Tombstoned, RouteAdmits, Storable;
  }

  lemma CutoverRow<E>(db: Db<E>, e: Runs.Event<E>, id: Id)
    requires id in db.memories && e.CutOver?
    ensures RowKept(db, Runs.Step(db, e), id)
  {
  }

  lemma QuietRow<E>(db: Db<E>, e: Runs.Event<E>, id: Id)
    requires id in db.memories && !e.Committed? && !e.Upserted? && !e.CutOver?
    ensures RowKept(db, Runs.Step(db, e), id)
  {
    hide Tombstoned, ReplayAdmits;
  }

  lemma EnvRow<E>(db: Db<E>, e: Runs.Event<E>, id: Id)
    requires EnvAllowed(e) && id in db.memories
    ensures RowKept(db, Runs.Step(db, e), id)
  {
    hide Runs.Step;
    if e.Committed? || e.Upserted? {
      WriteRow(db, e, id);
    } else if e.CutOver? {
      CutoverRow(db, e, id);
    } else {
      QuietRow(db, e, id);
    }
  }

  /** An active row that carries forgotten sources gains them from nobody. */
  lemma EnvClean<E>(db: Db<E>, e: Runs.Event<E>, user: User, sources: seq<Source>, id: Id)
    requires EnvAllowed(e) && Marked(db, user, sources)
    requires Live(Runs.Step(db, e), user, sources, id)
    ensures Live(db, user, sources, id)
  {
    var db' := Runs.Step(db, e);
    var source :| source in db'.memories[id].record.sources && source in sources;
    if Runs.Writes(db, e) && e.r.id == id {
      assert source in e.r.sources && (user, source) in db.tombstones;
      assert Tombstoned(db, user, e.r.sources);
      assert false;
    } else {
      assert id in db.memories;
      assert db'.memories[id].record.sources == db.memories[id].record.sources;
      EnvRow(db, e, id);
    }
  }

  lemma CommitRow<E>(db: Db<E>, logical: string, r: Record, evidence: E)
    ensures var db' := Commit(db, logical, r, evidence);
            && db'.tombstones == db.tombstones
            && (forall id :: id in db.memories && id != r.id ==> id in db'.memories && db'.memories[id] == db.memories[id])
            && (forall id :: id in db'.memories && id != r.id ==> id in db.memories)
            && (if CommitAdmits(db, logical, r) then r.id in db'.memories && db'.memories[r.id].record == r else db' == db)
  {
  }

  lemma DerivedRecord(r: Record, redact: bool, now: Stamp)
    ensures var d := RedactIf(SoftDelete(r, now), redact, now);
            && Inactive(d) && d.id == r.id && d.user == r.user && d.sources == r.sources
            && Rank(r.status) <= Rank(d.status) && (redact ==> d.status.Redacted?)
  {
  }

  lemma ProtectedRecord<E>(db: Db<E>, r: Record)
    ensures var p := Protect(db, r);
            p.id == r.id && p.user == r.user && p.sources == r.sources && Rank(r.status) <= Rank(p.status)
  {
  }

  // ---- Every step keeps what is durable ----

  /** Durable facts only accumulate: traces stay, and a row that is no longer active keeps its sources and never goes back. */
  ghost predicate Grows<E>(s: Sys<E>, s': Sys<E>) {
    && s.db.tombstones.Keys <= s'.db.tombstones.Keys
    && s.checkpoints.Keys <= s'.checkpoints.Keys
    && forall id :: id in s.db.memories ==>
         && id in s'.db.memories && s'.db.memories[id].record.user == s.db.memories[id].record.user
         && Rank(s.db.memories[id].record.status) <= Rank(s'.db.memories[id].record.status)
         && (!s.db.memories[id].record.status.Active? ==> s'.db.memories[id].record.sources == s.db.memories[id].record.sources)
  }

  /** Rows that are newly forgotten in a step are explained, and no forgotten source gains a live row. */
  ghost predicate Careful<E>(s: Sys<E>, s': Sys<E>) {
    && Grows(s, s')
    && (forall id :: id in s'.db.memories && Inactive(s'.db.memories[id].record) && !(id in s.db.memories && Inactive(s.db.memories[id].record)) ==>
          var r := s'.db.memories[id].record;
          Forgotten(s', r.user, id) || Tombstoned(s'.db, r.user, r.sources))
    && (forall user, sources, id :: Marked(s.db, user, sources) && Live(s'.db, user, sources, id) ==> Live(s.db, user, sources, id))
  }

  lemma ForgottenKept<E>(s: Sys<E>, s': Sys<E>, user: User, id: Id)
    requires Grows(s, s') && Forgotten(s, user, id)
    ensures Forgotten(s', user, id)
  {
  }

  lemma CompletedKept<E>(s: Sys<E>, s': Sys<E>, user: User, id: Id)
    requires Careful(s, s') && Completed(s, user, id)
    requires (user, id) in s'.checkpoints && s'.checkpoints[(user, id)] == s.checkpoints[(user, id)]
    ensures Completed(s', user, id)
  {
    ForgottenKept(s, s', user, id);
    var sources := s.db.memories[id].record.sources;
    assert s'.db.memories[id].record.sources == sources;
    forall other | other in s'.db.memories
      ensures !Live(s'.db, user, sources, other)
    {
      assert Live(s'.db, user, sources, other) ==> Live(s.db, user, sources, other);
    }
  }

  /** Steps that leave the tables alone are careful. */
  lemma QuietCareful<E>(s: Sys<E>, s': Sys<E>)
    requires s'.db.memories == s.db.memories && s.db.tombstones.Keys <= s'.db.tombstones.Keys
    requires s.checkpoints.Keys <= s'.checkpoints.Keys
    ensures Careful(s, s')
  {
  }

  lemma DurableKept<E>(s: Sys<E>, s': Sys<E>)
    requires Careful(s, s') && Explained(s) && CheckpointsInv(s)
    requires forall user, id :: (user, id) in s'.checkpoints && s'.checkpoints[(user, id)].completed ==>
               ((user, id) in s.checkpoints && s.checkpoints[(user, id)] == s'.checkpoints[(user, id)]) || Completed(s', user, id)
    ensures Explained(s') && CheckpointsInv(s')
  {
    forall user, id | (user, id) in s'.checkpoints && s'.checkpoints[(user, id)].completed
      ensures Completed(s', user, id)
    {
      if !Completed(s', user, id) {
        CompletedKept(s, s', user, id);
      }
    }
    forall id | id in s'.db.memories && Inactive(s'.db.memories[id].record)
      ensures var r := s'.db.memories[id].record; Forgotten(s', r.user, id) || Tombstoned(s'.db, r.user, r.sources)
    {
      if id in s.db.memories && Inactive(s.db.memories[id].record) {
        var r := s.db.memories[id].record;
        if Forgotten(s, r.user, id) {
          ForgottenKept(s, s', r.user, id);
        } else {
          var source :| source in r.sources && (r.user, source) in s.db.tombstones;
          assert source in s'.db.memories[id].record.sources && (r.user, source) in s'.db.tombstones;
        }
      }
    }
  }

  lemma EnvCareful<E>(s: Sys<E>, e: Runs.Event<E>)
    requires EnvAllowed(e)
    ensures Careful(s, Step(s, Env(e)))
  {
    var s' := Step(s, Env(e));
    Runs.TombstonesStep(s.db, e);
    forall id | id in s.db.memories
      ensures id in s'.db.memories && s'.db.memories[id].record.user == s.db.memories[id].record.user
      ensures Rank(s.db.memories[id].record.status) <= Rank(s'.db.memories[id].record.status)
      ensures !s.db.memories[id].record.status.Active? ==> s'.db.memories[id].record.sources == s.db.memories[id].record.sources
    {
      EnvRow(s.db, e, id);
    }
    forall id | id in s'.db.memories && Inactive(s'.db.memories[id].record)
      ensures id in s.db.memories && Inactive(s.db.memories[id].record)
    {
      if id in s.db.memories {
        EnvRow(s.db, e, id);
      }
    }
    forall user, sources, id | Marked(s.db, user, sources) && Live(s'.db, user, sources, id)
      ensures Live(s.db, user, sources, id)
    {
      EnvClean(s.db, e, user, sources, id);
    }
  }

  /** Writing an advancing, explained record over its row is careful. */
  lemma CommitCareful<E>(s: Sys<E>, s': Sys<E>, logical: string, r: Record, evidence: E)
    requires s'.db == Commit(s.db, logical, r, evidence) && s.checkpoints == s'.checkpoints
    requires Advances(s.db, r.user, r.id, r) && Inactive(r)
    requires ((r.user, r.id) in s.checkpoints && Marked(s.db, r.user, r.sources)) || Tombstoned(s.db, r.user, r.sources)
    ensures Careful(s, s')
    ensures forall user, id, other :: Advances(s.db, user, id, other) && id != r.id ==> Advances(s'.db, user, id, other)
  {
    CommitRow(s.db, logical, r, evidence);
    if Tombstoned(s.db, r.user, r.sources) {
      assert Tombstoned(s'.db, r.user, r.sources);
    }
  }

  // ---- Every step keeps the invariant ----

  ghost predicate Inv<E>(s: Sys<E>) {
    Keyed(s.db) && CheckpointsInv(s) && Explained(s) && PhaseInv(s)
  }

  lemma AdvancesKept<E>(s: Sys<E>, e: Runs.Event<E>, user: User, id: Id, r: Record)
    requires EnvAllowed(e) && Advances(s.db, user, id, r)
    ensures Advances(Runs.Step(s.db, e), user, id, r)
  {
    EnvRow(s.db, e, id);
  }

  lemma EnvPropagating<E>(s: Sys<E>, e: Runs.Event<E>, req: Request, c: Checkpoint, sources: seq<Source>, listed: map<Id, Record>, failed: bool)
    requires EnvAllowed(e) && PropagatingInv(s, req, c, sources, listed, failed) && Careful(s, Step(s, Env(e)))
    ensures PropagatingInv(Step(s, Env(e)), req, c, sources, listed, failed)
  {
    hide Runs.Step;
    var s' := Step(s, Env(e));
    ForgottenKept(s, s', req.user, req.id);
    EnvRow(s.db, e, req.id);
    forall id | id in listed
      ensures Advances(s'.db, req.user, id, listed[id])
    {
      AdvancesKept(s, e, req.user, id, listed[id]);
    }
    assert Marked(s.db, req.user, sources);
    assert forall id :: Live(s'.db, req.user, sources, id) ==> Live(s.db, req.user, sources, id);
  }

  lemma EnvPhase<E>(s: Sys<E>, e: Runs.Event<E>)
    requires Inv(s) && EnvAllowed(e) && Careful(s, Step(s, Env(e)))
    ensures PhaseInv(Step(s, Env(e)))
  {
    hide Runs.Step, Explained, PropagatingInv, CheckpointsInv;
    var s' := Step(s, Env(e));
    match s.phase {
      case Idle =>
      case Stopped =>
      case Loading(_, _) =>
      case Deciding(req, _, _) => EnvRow(s.db, e, req.id);
      case Intending(req, r, _) => AdvancesKept(s, e, req.user, req.id, r);
      case Marking(req, r, _, _) => AdvancesKept(s, e, req.user, req.id, r);
      case Updating(req, r, _) => AdvancesKept(s, e, req.user, req.id, r);
      case Updated(req, _) =>
        ForgottenKept(s, s', req.user, req.id);
        EnvRow(s.db, e, req.id);
      case Propagating(req, c, sources, listed, failed) => EnvPropagating(s, e, req, c, sources, listed, failed);
      case Answered(req, c) =>
        if c.completed {
          EnvRow(s.db, e, req.id);
        }
    }
  }

  lemma EnvKept<E>(s: Sys<E>, e: Runs.Event<E>)
    requires Inv(s) && EnvAllowed(e)
    ensures Inv(Step(s, Env(e)))
  {
    hide Explained, CheckpointsInv, Careful, PhaseInv, Completed;
    EnvCareful(s, e);
    DurableKept(s, Step(s, Env(e)));
    Runs.KeyedStep(s.db, e);
    EnvPhase(s, e);
  }

  lemma TakenAdvances<E>(s: Sys<E>, req: Request, existing: Option<Checkpoint>, r: Record, now: Stamp)
    requires Follows(s.db, req.user, req.id, r)
    ensures Advances(s.db, req.user, req.id, Taken(existing, Protect(s.db, r), now))
  {
    ProtectedRecord(s.db, r);
    DerivedRecord(Protect(s.db, r), false, now);
  }

  lemma ReadKept<E>(s: Sys<E>, e: Event<E>)
    requires Inv(s) && (e.Begin? || e.Load?)
    ensures Inv(Step(s, e))
  {
    hide CheckpointsInv, Explained, Careful, Advances, PropagatingInv, UpdatedInv, UpdatingInv, MarkingInv, AnsweredInv;
    QuietCareful(s, Step(s, e));
    DurableKept(s, Step(s, e));
  }

  lemma DecidePhase<E>(s: Sys<E>, now: Stamp)
    requires PhaseInv(s) && s.phase.Deciding?
    ensures PhaseInv(Step(s, Decide(now)))
  {
    hide Protect, Advances, SoftDelete;
    var req, existing, r := s.phase.req, s.phase.existing, s.phase.r;
    TakenAdvances(s, req, existing, r, now);
    MaskedStatus(s.db, r, existing, now);
  }

  /** Masking and soft deletion neither reach nor leave Redacted. */
  lemma MaskedStatus<E>(db: Db<E>, r: Record, existing: Option<Checkpoint>, now: Stamp)
    ensures Protect(db, r).status.Redacted? <==> r.status.Redacted?
    ensures Taken(existing, Protect(db, r), now).status.Redacted? <==> r.status.Redacted?
  {
  }

  lemma DecideKept<E>(s: Sys<E>, now: Stamp)
    requires Inv(s)
    ensures Inv(Step(s, Decide(now)))
  {
    hide CheckpointsInv, Explained, Careful, PhaseInv, CompletedFor, Protect, Taken, Resumed;
    if s.phase.Deciding? {
      DecidePhase(s, now);
    }
    QuietCareful(s, Step(s, Decide(now)));
    DurableKept(s, Step(s, Decide(now)));
  }

  lemma IntentKept<E>(s: Sys<E>)
    requires Inv(s)
    ensures Inv(Step(s, SaveIntent))
  {
    hide Explained, Careful, Completed;
    var s' := Step(s, SaveIntent);
    QuietCareful(s, s');
    DurableKept(s, s');
  }

  lemma MarkKept<E>(s: Sys<E>)
    requires Inv(s)
    ensures Inv(Step(s, Mark))
  {
    hide CheckpointsInv, Explained, Careful;
    var s' := Step(s, Mark);
    QuietCareful(s, s');
    DurableKept(s, s');
  }

  lemma ResolveKept<E>(s: Sys<E>, now: Stamp)
    requires Inv(s)
    ensures Inv(Step(s, Resolve(now)))
  {
    hide Explained, Careful, Completed;
    var s' := Step(s, Resolve(now));
    QuietCareful(s, s');
    DurableKept(s, s');
    if s.phase.Marking? {
      DerivedRecord(s.phase.r, s.phase.req.redact, now);
    }
  }

  lemma UpdateKept<E>(s: Sys<E>, logical: string, evidence: E)
    requires Inv(s)
    ensures Inv(Step(s, Update(logical, evidence)))
  {
    if s.phase.Updating? {
      var s' := Step(s, Update(logical, evidence));
      CommitRow(s.db, logical, s.phase.r, evidence);
      CommitCareful(s, s', logical, s.phase.r, evidence);
      DurableKept(s, s');
    }
  }

  lemma ListKept<E>(s: Sys<E>)
    requires Inv(s)
    ensures Inv(Step(s, List))
  {
    hide CheckpointsInv, Explained, Careful, UpdatingInv, MarkingInv, AnsweredInv;
    var s' := Step(s, List);
    QuietCareful(s, s');
    DurableKept(s, s');
  }

  lemma CascadeCareful<E>(s: Sys<E>, id: Id, now: Stamp, logical: string, evidence: E)
    requires Keyed(s.db) && PhaseInv(s) && s.phase.Propagating? && id in s.phase.listed
    ensures var s' := Step(s, Cascade(id, now, logical, evidence));
            && Careful(s, s') && Keyed(s'.db)
            && forall other :: other in s.phase.listed && other != id ==> Advances(s'.db, s.phase.req.user, other, s.phase.listed[other])
  {
    hide Careful, Commit, Live;
    var req, r := s.phase.req, s.phase.listed[id];
    var s' := Step(s, Cascade(id, now, logical, evidence));
    var derived := RedactIf(SoftDelete(r, now), req.redact, now);
    DerivedRecord(r, req.redact, now);
    var source :| source in r.sources && source in s.phase.sources;
    assert (req.user, source) in s.db.tombstones && source in derived.sources;
    CommitRow(s.db, logical, derived, evidence);
    CommitCareful(s, s', logical, derived, evidence);
  }

  lemma CascadeLive<E>(s: Sys<E>, id: Id, now: Stamp, logical: string, evidence: E)
    requires PhaseInv(s) && s.phase.Propagating? && id in s.phase.listed
    requires Careful(s, Step(s, Cascade(id, now, logical, evidence)))
    ensures var s' := Step(s, Cascade(id, now, logical, evidence));
            s'.phase.failed || forall other :: other in s'.db.memories && other !in s'.phase.listed ==>
              !Live(s'.db, s.phase.req.user, s.phase.sources, other)
  {
    hide Commit, CommitAdmits, Grows, Forgotten;
    var req, r := s.phase.req, s.phase.listed[id];
    var s' := Step(s, Cascade(id, now, logical, evidence));
    var derived := RedactIf(SoftDelete(r, now), req.redact, now);
    DerivedRecord(r, req.redact, now);
    CommitRow(s.db, logical, derived, evidence);
    PropagatingMarked(s);
    if !s'.phase.failed {
      forall other | other in s'.db.memories && other !in s'.phase.listed
        ensures !Live(s'.db, req.user, s.phase.sources, other)
      {
        assert Live(s'.db, req.user, s.phase.sources, other) ==> Live(s.db, req.user, s.phase.sources, other);
      }
    }
  }

  lemma PropagatingMarked<E>(s: Sys<E>)
    requires PhaseInv(s) && s.phase.Propagating?
    ensures Marked(s.db, s.phase.req.user, s.phase.sources)
  {
  }

  lemma CascadePhase<E>(s: Sys<E>, id: Id, now: Stamp, logical: string, evidence: E)
    requires PhaseInv(s) && s.phase.Propagating? && id in s.phase.listed
    requires Careful(s, Step(s, Cascade(id, now, logical, evidence)))
    requires forall other :: other in s.phase.listed && other != id ==>
               Advances(Step(s, Cascade(id, now, logical, evidence)).db, s.phase.req.user, other, s.phase.listed[other])
    ensures PhaseInv(Step(s, Cascade(id, now, logical, evidence)))
  {
    hide Commit, Advances, Live, Forgotten, CommitAdmits, Shares;
    var req, r := s.phase.req, s.phase.listed[id];
    var s' := Step(s, Cascade(id, now, logical, evidence));
    var derived := RedactIf(SoftDelete(r, now), req.redact, now);
    DerivedRecord(r, req.redact, now);
    assert derived.id == id by {
      assert Advances(s.db, req.user, id, r);
      AdvancingId(s, req.user, id, r);
    }
    CommitRow(s.db, logical, derived, evidence);
    CommitRowAdmitted(s);
    ForgottenKept(s, s', req.user, req.id);
    CascadeLive(s, id, now, logical, evidence);
  }

  lemma CommitRowAdmitted<E>(s: Sys<E>)
    requires PhaseInv(s) && s.phase.Propagating?
    ensures s.phase.req.id in s.db.memories
  {
  }

  lemma AdvancingId<E>(s: Sys<E>, user: User, id: Id, r: Record)
    requires Advances(s.db, user, id, r)
    ensures r.id == id
  {
  }

  lemma CascadeKept<E>(s: Sys<E>, id: Id, now: Stamp, logical: string, evidence: E)
    requires Inv(s)
    ensures Inv(Step(s, Cascade(id, now, logical, evidence)))
  {
    if s.phase.Propagating? && id in s.phase.listed {
      hide Explained, CheckpointsInv, Careful, PhaseInv, Completed, Advances, Commit, CommitAdmits;
      CascadeCareful(s, id, now, logical, evidence);
      CascadePhase(s, id, now, logical, evidence);
      DurableKept(s, Step(s, Cascade(id, now, logical, evidence)));
    }
  }

  lemma ScrubKept<E>(s: Sys<E>, id: Id)
    requires Inv(s)
    ensures Inv(Step(s, Scrub(id)))
  {
    hide CheckpointsInv, Explained, Careful;
    var s' := Step(s, Scrub(id));
    QuietCareful(s, s');
    DurableKept(s, s');
  }

  lemma {:induction false} MergedTail(receipts: seq<Receipt>, incoming: seq<Receipt>)
    requires incoming != [] && !incoming[|incoming| - 1].acknowledged
    ensures !AllAcknowledged(MergeReceipts(receipts, incoming))
    decreases |incoming|
  {
    if |incoming| == 1 {
      MergedOne(receipts, incoming[0]);
      assert MergeReceipts(receipts, incoming) == MergeReceipts(MergeReceipt(receipts, incoming[0]), []);
    } else {
      MergedTail(MergeReceipt(receipts, incoming[0]), incoming[1..]);
    }
  }

  lemma {:induction false} MergedOne(receipts: seq<Receipt>, receipt: Receipt)
    ensures receipt in MergeReceipt(receipts, receipt)
  {
    if receipts != [] && !(receipts[0].backend == receipt.backend && receipts[0].operation == receipt.operation) {
      MergedOne(receipts[1..], receipt);
    }
  }

  /** Settling with every receipt acknowledged makes the forget complete. */
  lemma SettleCompletes<E>(s: Sys<E>, outcome: Result<seq<Receipt>, string>)
    requires PhaseInv(s) && s.phase.Propagating? && OutcomeFits(s.phase, outcome)
    requires Settled(s.phase.c, outcome).completed
    ensures Completed(Step(s, Settle(outcome)), s.phase.req.user, s.phase.req.id)
  {
    hide Shares, Live, Advances, MergeReceipts;
    if s.phase.failed {
      MergedTail(s.phase.c.receipts, outcome.value);
      assert false;
    }
  }

  /** Past the record's update, the row is there and redacted as asked, and the checkpoint is still open. */
  lemma UpdatedHolds<E>(s: Sys<E>)
    requires PhaseInv(s) && (s.phase.Propagating? || s.phase.Updated?)
    ensures s.phase.req.id in s.db.memories && !s.phase.c.completed
    ensures s.phase.req.redact ==> s.db.memories[s.phase.req.id].record.status.Redacted?
  {
    hide Advances, Live, Shares;
  }

  lemma SettleAnswered<E>(s: Sys<E>, outcome: Result<seq<Receipt>, string>)
    requires PhaseInv(s)
    requires (s.phase.Propagating? && OutcomeFits(s.phase, outcome)) || (s.phase.Updated? && outcome.Failure?)
    ensures PhaseInv(Step(s, Settle(outcome)))
    ensures s.phase.Updated? ==> !Settled(s.phase.c, outcome).completed
  {
    UpdatedHolds(s);
    hide MergeReceipts, AllAcknowledged, PropagatingInv, UpdatedInv, MarkingInv, UpdatingInv;
  }

  lemma SettleKept<E>(s: Sys<E>, outcome: Result<seq<Receipt>, string>)
    requires Inv(s)
    ensures Inv(Step(s, Settle(outcome)))
  {
    hide Explained, CheckpointsInv, Careful, Keyed, PhaseInv, Completed, Settled;
    var s' := Step(s, Settle(outcome));
    if (s.phase.Propagating? && OutcomeFits(s.phase, outcome)) || (s.phase.Updated? && outcome.Failure?) {
      SettleAnswered(s, outcome);
      if Settled(s.phase.c, outcome).completed {
        SettleCompletes(s, outcome);
      }
      QuietCareful(s, s');
      DurableKept(s, s');
    }
  }

  lemma UpdateCareful<E>(s: Sys<E>, logical: string, evidence: E)
    requires PhaseInv(s) && s.phase.Updating?
    ensures Careful(s, Step(s, Update(logical, evidence)))
  {
    hide Careful, Commit, Live;
    var s' := Step(s, Update(logical, evidence));
    if CommitAdmits(s.db, logical, s.phase.r) {
      CommitCareful(s, s', logical, s.phase.r, evidence);
    } else {
      QuietCareful(s, s');
    }
  }

  /** Every step only accumulates durable facts. */
  lemma StepCareful<E>(s: Sys<E>, e: Event<E>)
    requires Inv(s)
    ensures Careful(s, Step(s, e))
  {
    hide Careful, Explained, CheckpointsInv, PhaseInv, Runs.Step, Commit;
    match e {
      case Update(logical, evidence) =>
        if s.phase.Updating? {
          UpdateCareful(s, logical, evidence);
        } else {
          QuietCareful(s, Step(s, e));
        }
      case Cascade(id, now, logical, evidence) =>
        if s.phase.Propagating? && id in s.phase.listed {
          CascadeCareful(s, id, now, logical, evidence);
        } else {
          QuietCareful(s, Step(s, e));
        }
      case Env(env) =>
        if EnvAllowed(env) {
          EnvCareful(s, env);
        } else {
          QuietCareful(s, Step(s, e));
        }
      case _ => QuietCareful(s, Step(s, e));
    }
  }

  lemma StepKept<E>(s: Sys<E>, e: Event<E>)
    requires Inv(s)
    ensures Inv(Step(s, e))
  {
    match e {
      case Begin(_) => ReadKept(s, e);
      case Load => ReadKept(s, e);
      case Decide(now) => DecideKept(s, now);
      case SaveIntent => IntentKept(s);
      case Mark => MarkKept(s);
      case Resolve(now) => ResolveKept(s, now);
      case Update(logical, evidence) => UpdateKept(s, logical, evidence);
      case List => ListKept(s);
      case Cascade(id, now, logical, evidence) => CascadeKept(s, id, now, logical, evidence);
      case Scrub(id) => ScrubKept(s, id);
      case Settle(outcome) => SettleKept(s, outcome);
      case Crash =>
        QuietCareful(s, Step(s, e));
        DurableKept(s, Step(s, e));
      case Env(env) =>
        if EnvAllowed(env) {
          EnvKept(s, env);
        }
    }
  }
}
