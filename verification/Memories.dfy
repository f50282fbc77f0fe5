/**
 The memory tables of one tenant: canonical rows, source tombstones, graph plans and embedding
 routes, with the transactions of the Postgres adapter as atomic steps.

 Identifiers of runtime-state rows are kept as tuples instead of slash-joined keys: users contain
 no slash, so the key names the same pair.
 */
module Memories {
  import opened Wrappers

  type Id = string
  type User = string
  type Source = string
  type Stamp = int

  datatype Status = Active | SoftDeleted | Redacted | Archived

  datatype Privacy = Private | Sensitive | Shared | Restricted

  datatype Embedding = Embedding(provider: Option<string>, model: Option<string>, dim: Option<nat>, vector: Option<seq<real>>)

  datatype Record = Record(
    id: Id, user: User, session: Option<string>, content: string, kind: string, sources: seq<Source>,
    entities: seq<string>, tags: seq<string>, privacy: Privacy, createdAt: Stamp, updatedAt: Stamp,
    status: Status, embedding: Embedding, accessCount: nat, lastAccessed: Option<Stamp>)

  /** created_at is a column of its own: an upsert never changes it. */
  datatype Row = Row(record: Record, createdAt: Stamp)

  datatype Tombstone = Tombstone(memory: Id, redact: bool)

  /** `version` is the pre-image of the source fingerprint; revisions are fresh per plan. */
  datatype Plan<E> = Plan(record: Record, evidence: E, version: Record, revision: nat, applied: Option<nat>)

  datatype Route = Route(collection: string, provider: Option<string>, model: Option<string>, dim: Option<nat>)

  datatype Db<E> = Db(
    memories: map<Id, Row>,
    tombstones: map<(User, Source), Tombstone>,
    plans: map<(User, Id), Plan<E>>,
    routes: map<(string, User), Route>,
    nextRevision: nat)

  /** The id column and the id inside the record are written together. */
  ghost predicate Keyed<E>(db: Db<E>) {
    forall id :: id in db.memories ==> db.memories[id].record.id == id
  }

  datatype WriteResult = Written | Conflict | Invalid

  /** The record without the fields that reads and re-embedding change. */
  function SourceVersion(r: Record): Record {
    r.(accessCount := 0, lastAccessed := None, embedding := Embedding(None, None, None, None))
  }

  predicate TransitionAllowed(from: Status, to: Status) {
    || (from in {Active, Archived} && to == SoftDeleted)
    || (from == SoftDeleted && to == Redacted)
    || (from == Active && to == Archived)
  }

  function Blanked(r: Record): Record {
    r.(content := "[redacted]", entities := [], tags := [], embedding := r.embedding.(vector := None))
  }

  /** MemoryRecord::transition for an accepted actor and reason. */
  function Transition(r: Record, to: Status, now: Stamp): Record
    requires TransitionAllowed(r.status, to)
  {
    var moved := r.(status := to, updatedAt := now);
    if to == Redacted then Blanked(moved) else moved
  }

  predicate Tombstoned<E>(db: Db<E>, user: User, sources: seq<Source>) {
    exists source :: source in sources && (user, source) in db.tombstones
  }

  /** The columns the insert itself insists on. */
  predicate Storable(r: Record) {
    r.embedding.dim.Some? && r.embedding.provider.Some? && r.embedding.model.Some? && r.content != ""
  }

  function MemoryWriteResult<E>(db: Db<E>, r: Record): WriteResult {
    if r.status.Active? && r.id in db.memories && db.memories[r.id].record.user == r.user && !db.memories[r.id].record.status.Active? then
      Conflict
    else if r.status.Active? && Tombstoned(db, r.user, r.sources) then
      Conflict
    else if !Storable(r) then
      Invalid
    else if r.id in db.memories && db.memories[r.id].record.user != r.user then
      Conflict
    else
      Written
  }

  function PutMemory<E>(db: Db<E>, r: Record): Db<E> {
    db.(memories := db.memories[r.id := Row(r, if r.id in db.memories then db.memories[r.id].createdAt else r.createdAt)])
  }

  function MemoryWrite<E>(db: Db<E>, r: Record): Db<E> {
    if MemoryWriteResult(db, r).Written? then PutMemory(db, r) else db
  }

  function PutPlan<E>(db: Db<E>, r: Record, planned: Record, evidence: E): Db<E> {
    db.(plans := db.plans[(r.user, r.id) := Plan(planned, evidence, SourceVersion(r), db.nextRevision, None)],
        nextRevision := db.nextRevision + 1)
  }

  predicate RouteAdmits<E>(db: Db<E>, logical: string, r: Record) {
    r.status.Active? && (logical, r.user) in db.routes ==>
      var route := db.routes[(logical, r.user)];
      r.embedding.dim == route.dim && r.embedding.model == route.model && r.embedding.provider == route.provider
  }

  predicate CommitAdmits<E>(db: Db<E>, logical: string, r: Record) {
    RouteAdmits(db, logical, r) && MemoryWriteResult(db, r).Written?
  }

  /** commit_memory: the row and a fresh, unacknowledged graph plan in one transaction. */
  function Commit<E>(db: Db<E>, logical: string, r: Record, evidence: E): Db<E> {
    if CommitAdmits(db, logical, r) then PutPlan(PutMemory(db, r), r, r, evidence) else db
  }

  predicate ReplayAdmits<E>(db: Db<E>, r: Record, leased: bool) {
    && !leased
    && r.id in db.memories && db.memories[r.id].record.user == r.user
    && db.memories[r.id].record.status.Active?
    && SourceVersion(db.memories[r.id].record) == SourceVersion(r)
    && !Tombstoned(db, r.user, db.memories[r.id].record.sources)
  }

  /** commit_graph_replay: a fresh plan for an unchanged active row. */
  function Replay<E>(db: Db<E>, r: Record, evidence: E, leased: bool): Db<E> {
    if ReplayAdmits(db, r, leased) then PutPlan(db, db.memories[r.id].record, r, evidence) else db
  }

  function Acknowledge<E>(db: Db<E>, user: User, id: Id, revision: nat): Db<E> {
    if (user, id) in db.plans && db.plans[(user, id)].revision == revision then
      db.(plans := db.plans[(user, id) := db.plans[(user, id)].(applied := Some(revision))])
    else db
  }

  const MAX_ACCESSES: nat := 0x7FFF_FFFF_FFFF_FFFF

  function RecordAccesses<E>(db: Db<E>, user: User, ids: set<Id>, now: Stamp): Db<E> {
    db.(memories := map id | id in db.memories ::
          var row := db.memories[id];
          if id in ids && row.record.user == user && row.record.status.Active? then
            row.(record := row.record.(
              accessCount := (if row.record.accessCount < MAX_ACCESSES then row.record.accessCount else MAX_ACCESSES - 1) + 1,
              lastAccessed := Some(now)))
          else row)
  }

  /** The row is active and none of its sources was forgotten. */
  predicate Visible<E>(db: Db<E>, user: User, id: Id) {
    && id in db.memories
    && db.memories[id].record.user == user
    && db.memories[id].record.status.Active?
    && !Tombstoned(db, user, db.memories[id].record.sources)
  }

  predicate GraphVisible<E>(db: Db<E>, user: User, id: Id, privacy: set<Privacy>) {
    && Visible(db, user, id)
    && db.memories[id].record.privacy in privacy
    && (user, id) in db.plans
    && db.plans[(user, id)].applied == Some(db.plans[(user, id)].revision)
    && SourceVersion(db.memories[id].record) == SourceVersion(db.plans[(user, id)].record)
  }

  // ---- What that says of the fields ----

  /** The same record but for reads and embedding. */
  predicate SameVersion(a: Record, b: Record) {
    && a.id == b.id && a.user == b.user && a.session == b.session && a.content == b.content && a.kind == b.kind
    && a.sources == b.sources && a.entities == b.entities && a.tags == b.tags && a.privacy == b.privacy
    && a.createdAt == b.createdAt && a.updatedAt == b.updatedAt && a.status == b.status
  }

  lemma VersionMeans(a: Record, b: Record)
    ensures SourceVersion(a) == SourceVersion(b) <==> SameVersion(a, b)
  {
  }

  /** No source of the user's is forgotten. */
  predicate Unforgotten<E>(db: Db<E>, user: User, sources: seq<Source>) {
    forall i :: 0 <= i < |sources| ==> (user, sources[i]) !in db.tombstones
  }

  /** What lets a record be written: its own columns, the row it replaces, and the sources of an active one. */
  predicate Fit<E>(db: Db<E>, r: Record) {
    && r.embedding.dim.Some? && r.embedding.provider.Some? && r.embedding.model.Some? && r.content != ""
    && (r.id in db.memories ==> db.memories[r.id].record.user == r.user && (r.status.Active? ==> db.memories[r.id].record.status.Active?))
    && (r.status.Active? ==> Unforgotten(db, r.user, r.sources))
  }

  /** A record is written if and only if it fits; it replaces its own row, which keeps its creation time, and nothing else changes. */
  lemma WriteMeans<E>(db: Db<E>, r: Record)
    ensures MemoryWriteResult(db, r).Written? <==> Fit(db, r)
    ensures var row := Row(r, if r.id in db.memories then db.memories[r.id].createdAt else r.createdAt);
            MemoryWrite(db, r) == if Fit(db, r) then db.(memories := db.memories[r.id := row]) else db
  {
    if r.status.Active? && !Tombstoned(db, r.user, r.sources) {
      forall i | 0 <= i < |r.sources|
        ensures (r.user, r.sources[i]) !in db.tombstones
      {
        assert r.sources[i] in r.sources;
      }
    }
  }

  /** A redaction leaves nothing of the content; any other transition changes the status and the time of the change. */
  lemma TransitionMeans(r: Record, to: Status, now: Stamp)
    requires TransitionAllowed(r.status, to)
    ensures var t := Transition(r, to, now);
            && t.status == to && t.updatedAt == now && t.id == r.id && t.user == r.user && t.session == r.session && t.kind == r.kind
            && t.sources == r.sources && t.privacy == r.privacy && t.createdAt == r.createdAt
            && t.accessCount == r.accessCount && t.lastAccessed == r.lastAccessed
            && t.embedding.provider == r.embedding.provider && t.embedding.model == r.embedding.model && t.embedding.dim == r.embedding.dim
            && (if to == Redacted then t.content == "[redacted]" && t.entities == [] && t.tags == [] && t.embedding.vector.None?
                else t.content == r.content && t.entities == r.entities && t.tags == r.tags && t.embedding.vector == r.embedding.vector)
  {
  }

  /** Forgetting goes from active or archived to soft-deleted and from there to redacted; archiving goes from active; nothing else goes. */
  lemma TransitionsAre(from: Status, to: Status)
    ensures TransitionAllowed(from, to) <==>
              || (from.Active? && to.SoftDeleted?) || (from.Archived? && to.SoftDeleted?)
              || (from.SoftDeleted? && to.Redacted?) || (from.Active? && to.Archived?)
  {
  }

  lemma VisibleMeans<E>(db: Db<E>, user: User, id: Id)
    ensures Visible(db, user, id) <==>
              (&& id in db.memories && db.memories[id].record.user == user && db.memories[id].record.status == Active
               && Unforgotten(db, user, db.memories[id].record.sources))
  {
    if id in db.memories && !Tombstoned(db, user, db.memories[id].record.sources) {
      var sources := db.memories[id].record.sources;
      forall i | 0 <= i < |sources|
        ensures (user, sources[i]) !in db.tombstones
      {
        assert sources[i] in sources;
      }
    }
  }

  /** Reads of active memories of the user are counted, up to the greatest 64-bit integer, and nothing else changes. */
  lemma AccessesMean<E>(db: Db<E>, user: User, ids: set<Id>, now: Stamp, id: Id)
    requires id in db.memories
    ensures var db', r := RecordAccesses(db, user, ids, now), db.memories[id].record;
            && db' == db.(memories := db'.memories) && db'.memories.Keys == db.memories.Keys
            && var r' := db'.memories[id].record;
               if id in ids && r.user == user && r.status.Active? then
                 && r' == r.(accessCount := r'.accessCount, lastAccessed := Some(now))
                 && (r.accessCount < 0x7FFF_FFFF_FFFF_FFFF ==> r'.accessCount == r.accessCount + 1)
                 && (r.accessCount >= 0x7FFF_FFFF_FFFF_FFFF ==> r'.accessCount == 0x7FFF_FFFF_FFFF_FFFF)
               else db'.memories[id] == db.memories[id]
  {
  }

  /** The adapter over tables that are updated in place. */
  class MemoryTables<E> {
    var db: Db<E>

    method MemoryWriteRow(r: Record) returns (result: WriteResult)
      modifies this
      ensures result == MemoryWriteResult(old(db), r)
      ensures db == MemoryWrite(old(db), r)
      ensures result.Written? <==> Fit(old(db), r)
      ensures db == if result.Written?
                    then old(db).(memories := old(db).memories[r.id := Row(r, if r.id in old(db).memories then old(db).memories[r.id].createdAt else r.createdAt)])
                    else old(db)
    {
      WriteMeans(db, r);
      if r.status.Active? {
        if r.id in db.memories && db.memories[r.id].record.user == r.user {
          if db.memories[r.id].record.status != Active {
            return Conflict;
          }
        }
        for i := 0 to |r.sources|
          invariant forall j :: 0 <= j < i ==> (r.user, r.sources[j]) !in db.tombstones
          invariant db == old(db)
        {
          if (r.user, r.sources[i]) in db.tombstones {
            return Conflict;
          }
        }
      }
      if !Storable(r) {
        return Invalid;
      }
      if r.id in db.memories {
        if db.memories[r.id].record.user != r.user {
          return Conflict;
        }
        db := db.(memories := db.memories[r.id := db.memories[r.id].(record := r)]);
      } else {
        db := db.(memories := db.memories[r.id := Row(r, r.createdAt)]);
      }
      return Written;
    }

    method CommitMemory(logical: string, r: Record, evidence: E) returns (committed: bool)
      modifies this
      ensures committed == CommitAdmits(old(db), logical, r)
      ensures db == Commit(old(db), logical, r, evidence)
      ensures committed <==>
                (&& Fit(old(db), r)
                 && (r.status.Active? && (logical, r.user) in old(db).routes ==>
                       var route := old(db).routes[(logical, r.user)];
                       r.embedding.dim == route.dim && r.embedding.model == route.model && r.embedding.provider == route.provider))
      ensures committed ==>
                && r.id in db.memories && db.memories[r.id].record == r
                && (r.user, r.id) in db.plans && db.plans[(r.user, r.id)].record == r && db.plans[(r.user, r.id)].evidence == evidence
                && db.plans[(r.user, r.id)].revision == old(db).nextRevision && db.plans[(r.user, r.id)].applied.None?
                && db.nextRevision == old(db).nextRevision + 1
    {
      WriteMeans(db, r);
      if r.status.Active? && (logical, r.user) in db.routes {
        var route := db.routes[(logical, r.user)];
        if r.embedding.dim != route.dim || r.embedding.model != route.model || r.embedding.provider != route.provider {
          return false;
        }
      }
      var written := MemoryWriteRow(r);
      if !written.Written? {
        return false;
      }
      GraphPlan(r, r, evidence);
      return true;
    }

    method GraphPlan(r: Record, planned: Record, evidence: E)
      modifies this
      ensures db == PutPlan(old(db), r, planned, evidence)
    {
      var plan := Plan(planned, evidence, SourceVersion(r), db.nextRevision, None);
      db := db.(plans := db.plans[(r.user, r.id) := plan], nextRevision := db.nextRevision + 1);
    }

    method CommitGraphReplay(r: Record, evidence: E, leased: bool) returns (committed: bool)
      modifies this
      ensures committed == ReplayAdmits(old(db), r, leased)
      ensures db == Replay(old(db), r, evidence, leased)
      ensures committed <==>
                (&& !leased && r.id in old(db).memories && old(db).memories[r.id].record.user == r.user
                 && old(db).memories[r.id].record.status.Active? && SameVersion(old(db).memories[r.id].record, r)
                 && Unforgotten(old(db), r.user, old(db).memories[r.id].record.sources))
      ensures db.memories == old(db).memories
      ensures committed ==>
                && (r.user, r.id) in db.plans && db.plans[(r.user, r.id)].record == r && db.plans[(r.user, r.id)].evidence == evidence
                && db.plans[(r.user, r.id)].revision == old(db).nextRevision && db.plans[(r.user, r.id)].applied.None?
    {
      if r.id in db.memories {
        VersionMeans(db.memories[r.id].record, r);
        VisibleMeans(db, r.user, r.id);
      }
      if leased || r.id !in db.memories || db.memories[r.id].record.user != r.user {
        return false;
      }
      var current := db.memories[r.id].record;
      if current.status != Active || SourceVersion(current) != SourceVersion(r) {
        return false;
      }
      for i := 0 to |current.sources|
        invariant forall j :: 0 <= j < i ==> (current.user, current.sources[j]) !in db.tombstones
        invariant db == old(db)
      {
        if (current.user, current.sources[i]) in db.tombstones {
          return false;
        }
      }
      GraphPlan(current, r, evidence);
      return true;
    }

    method AcknowledgeGraph(user: User, id: Id, revision: nat)
      modifies this
      ensures db == Acknowledge(old(db), user, id, revision)
      ensures if (user, id) in old(db).plans && old(db).plans[(user, id)].revision == revision
              then db == old(db).(plans := old(db).plans[(user, id) := old(db).plans[(user, id)].(applied := Some(revision))]) else db == old(db)
    {
      if (user, id) in db.plans && db.plans[(user, id)].revision == revision {
        db := db.(plans := db.plans[(user, id) := db.plans[(user, id)].(applied := Some(revision))]);
      }
    }

    method GetActiveMemories(user: User, ids: seq<Id>) returns (found: map<Id, Record>)
      ensures forall id :: id in found <==> id in ids && Visible(db, user, id)
      ensures forall id :: id in found ==> id in db.memories && found[id] == db.memories[id].record
      ensures forall id :: id in found <==>
                (&& id in ids && id in db.memories && db.memories[id].record.user == user && db.memories[id].record.status == Active
                 && Unforgotten(db, user, db.memories[id].record.sources))
    {
      forall id
        ensures Visible(db, user, id) <==>
                  (&& id in db.memories && db.memories[id].record.user == user && db.memories[id].record.status == Active
                   && Unforgotten(db, user, db.memories[id].record.sources))
      {
        VisibleMeans(db, user, id);
      }
      hide Unforgotten;
      found := map[];
      for i := 0 to |ids|
        invariant forall id :: id in found <==> id in ids[..i] && Visible(db, user, id)
        invariant forall id :: id in found ==> id in db.memories && found[id] == db.memories[id].record
      {
        if Visible(db, user, ids[i]) {
          found := found[ids[i] := db.memories[ids[i]].record];
        }
      }
    }
  }
}
