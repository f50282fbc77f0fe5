/**
 Read cutover: the active rows of a user take the embeddings of a staged snapshot, and the
 logical route moves to the target collection, in one transaction that any mismatch rolls back.
 */
module Cutover {
  import opened Wrappers
  import opened Memories

  function ActiveIds<E>(db: Db<E>, user: User): set<Id> {
    set id | id in db.memories && db.memories[id].record.user == user && db.memories[id].record.status.Active?
  }

  function Ids(records: seq<Record>): set<Id> {
    set r | r in records :: r.id
  }

  /** The first staged record with the id. */
  function Find(staged: seq<Record>, id: Id): (r: Option<Record>)
    ensures r.Some? ==> r.value in staged && r.value.id == id
    ensures r.Some? <==> id in Ids(staged)
  {
    if staged == [] then None
    else if staged[0].id == id then
      assert staged[0] in staged;
      Some(staged[0])
    else
      assert forall r :: r in staged <==> r == staged[0] || r in staged[1..];
      Find(staged[1..], id)
  }

  predicate SameSource(r: Record, next: Record) {
    && r.content == next.content && r.sources == next.sources && r.privacy == next.privacy
    && r.updatedAt == next.updatedAt && r.entities == next.entities && r.tags == next.tags
  }

  predicate RowAdmits<E>(db: Db<E>, staged: seq<Record>, id: Id)
    requires id in db.memories
  {
    var r := db.memories[id].record;
    var next := Find(staged, id);
    && next.Some? && SameSource(r, next.value)
    && !Tombstoned(db, r.user, r.sources)
    && Storable(r.(embedding := next.value.embedding))
  }

  predicate CutoverAdmits<E>(db: Db<E>, user: User, staged: seq<Record>) {
    && staged != []
    && (forall r :: r in staged ==> r.user == user)
    && |ActiveIds(db, user)| == |staged|
    && (forall id :: id in ActiveIds(db, user) ==> RowAdmits(db, staged, id))
  }

  /** The table with the given rows re-embedded. */
  function Reembed<E>(db: Db<E>, ids: set<Id>, staged: seq<Record>): Db<E> {
    db.(memories := map id | id in db.memories ::
          var row := db.memories[id];
          if id in ids && Find(staged, id).Some? then
            row.(record := row.record.(embedding := Find(staged, id).value.embedding))
          else row)
  }

  function RouteTo(target: string, first: Record): Route {
    Route(target, first.embedding.provider, first.embedding.model, first.embedding.dim)
  }

  function Apply<E>(db: Db<E>, user: User, logical: string, target: string, staged: seq<Record>): Db<E> {
    if CutoverAdmits(db, user, staged) then
      Reembed(db, ActiveIds(db, user), staged).(routes := db.routes[(logical, user) := RouteTo(target, staged[0])])
    else db
  }

  lemma {:induction false} IdsBound(records: seq<Record>)
    ensures |Ids(records)| <= |records|
  {
    if records != [] {
      IdsBound(records[1..]);
      assert Ids(records) == {records[0].id} + Ids(records[1..]);
    }
  }

  lemma EqualBySize<T>(small: set<T>, big: set<T>)
    requires small <= big && |big| <= |small|
    ensures small == big
  {
    assert |big - small| == |big| - |small|;
  }

  /** The snapshot has the row's own content, sources, privacy, version, entities and tags, and an embedding that can be stored. */
  predicate Staged(r: Record, next: Record) {
    && next.content == r.content && next.sources == r.sources && next.privacy == r.privacy
    && next.updatedAt == r.updatedAt && next.entities == r.entities && next.tags == r.tags
    && next.embedding.dim.Some? && next.embedding.provider.Some? && next.embedding.model.Some? && r.content != ""
  }

  predicate RowReady<E>(db: Db<E>, staged: seq<Record>, id: Id)
    requires id in db.memories
  {
    var r := db.memories[id].record;
    && (exists k :: 0 <= k < |staged| && staged[k].id == id && Staged(r, staged[k]))
    && forall source :: source in r.sources ==> (r.user, source) !in db.tombstones
  }

  lemma {:induction false} OnceFound(staged: seq<Record>, k: nat)
    requires k < |staged| && |Ids(staged)| == |staged|
    ensures Find(staged, staged[k].id) == Some(staged[k])
  {
    var rest := staged[1..];
    IdsBound(rest);
    assert Ids(staged) == {staged[0].id} + Ids(rest);
    assert staged[0].id !in Ids(rest);
    if k > 0 {
      assert rest[k - 1] == staged[k] && staged[k] in rest;
      assert staged[k].id in Ids(rest);
      OnceFound(rest, k - 1);
    }
  }

  lemma RowReadyIff<E>(db: Db<E>, staged: seq<Record>, id: Id)
    requires id in db.memories && |Ids(staged)| == |staged|
    ensures RowAdmits(db, staged, id) <==> RowReady(db, staged, id)
  {
    var r := db.memories[id].record;
    if k :| 0 <= k < |staged| && staged[k].id == id && Staged(r, staged[k]) {
      OnceFound(staged, k);
    }
    if RowAdmits(db, staged, id) {
      var next := Find(staged, id).value;
      var k :| 0 <= k < |staged| && staged[k] == next;
      assert Staged(r, staged[k]);
    }
    hide Find, Ids;
  }

  lemma IdsOnce<E>(db: Db<E>, user: User, staged: seq<Record>)
    requires |ActiveIds(db, user)| == |staged| && forall id :: id in ActiveIds(db, user) ==> id in Ids(staged)
    ensures |Ids(staged)| == |staged|
  {
    IdsBound(staged);
    EqualBySize(ActiveIds(db, user), Ids(staged));
  }

  lemma ReadyId<E>(db: Db<E>, staged: seq<Record>, id: Id)
    requires id in db.memories && RowReady(db, staged, id)
    ensures id in Ids(staged)
  {
    var k :| 0 <= k < |staged| && staged[k].id == id && Staged(db.memories[id].record, staged[k]);
    assert staged[k] in staged;
  }

  /**
   A cutover goes through if and only if there is a snapshot, all of the user's, of as many records as the
   user has active rows, and each of these rows has a record of its own id that says the same and can be
   stored, and none of its sources was forgotten.
   */
  lemma CutoverAdmitsIff<E>(db: Db<E>, user: User, staged: seq<Record>)
    ensures CutoverAdmits(db, user, staged) <==>
              (&& staged != [] && (forall i :: 0 <= i < |staged| ==> staged[i].user == user)
               && |set id | id in db.memories && db.memories[id].record.user == user && db.memories[id].record.status.Active?| == |staged|
               && forall id :: id in db.memories && db.memories[id].record.user == user && db.memories[id].record.status.Active? ==> RowReady(db, staged, id))
  {
    hide RowAdmits, RowReady, Find;
    if |ActiveIds(db, user)| == |staged| {
      if CutoverAdmits(db, user, staged) {
        forall id | id in ActiveIds(db, user)
          ensures id in Ids(staged)
        {
          AdmittedId(db, staged, id);
        }
        IdsOnce(db, user, staged);
      }
      if forall id :: id in ActiveIds(db, user) ==> RowReady(db, staged, id) {
        forall id | id in ActiveIds(db, user)
          ensures id in Ids(staged)
        {
          ReadyId(db, staged, id);
        }
        IdsOnce(db, user, staged);
      }
      if |Ids(staged)| == |staged| {
        forall id | id in ActiveIds(db, user)
          ensures RowAdmits(db, staged, id) <==> RowReady(db, staged, id)
        {
          RowReadyIff(db, staged, id);
        }
      }
    }
    hide Ids;
  }

  lemma AdmittedId<E>(db: Db<E>, staged: seq<Record>, id: Id)
    requires id in db.memories && RowAdmits(db, staged, id)
    ensures id in Ids(staged)
  {
    hide SameSource, Tombstoned;
  }

  /**
   What a successful cutover means: by pigeonhole the snapshot holds exactly the active ids, once
   each; every active row differs from before in its embedding only, which is the staged one; all
   other rows, tombstones and plans are as before; and the route points to the target.
   */
  lemma CutoverKeepsSources<E>(db: Db<E>, user: User, logical: string, target: string, staged: seq<Record>)
    requires CutoverAdmits(db, user, staged)
    ensures Ids(staged) == ActiveIds(db, user) && |Ids(staged)| == |staged|
    ensures var after := Apply(db, user, logical, target, staged);
            && after.memories.Keys == db.memories.Keys
            && ActiveIds(after, user) == ActiveIds(db, user)
            && (forall id :: id in ActiveIds(db, user) ==>
                  exists next :: next in staged && next.id == id && Staged(db.memories[id].record, next) &&
                    after.memories[id] == db.memories[id].(record := db.memories[id].record.(embedding := next.embedding)))
            && (forall id :: id in db.memories && id !in ActiveIds(db, user) ==> after.memories[id] == db.memories[id])
            && after.tombstones == db.tombstones && after.plans == db.plans
            && (logical, user) in after.routes && after.routes[(logical, user)] == Route(target, staged[0].embedding.provider, staged[0].embedding.model, staged[0].embedding.dim)
            && (forall key :: key in db.routes && key != (logical, user) ==> key in after.routes && after.routes[key] == db.routes[key])
  {
    IdsBound(staged);
    forall id | id in ActiveIds(db, user)
      ensures id in Ids(staged)
    {
      assert RowAdmits(db, staged, id);
    }
    EqualBySize(ActiveIds(db, user), Ids(staged));
  }

  lemma SameTombstones<E>(db: Db<E>, db': Db<E>, user: User, sources: seq<Source>)
    requires db'.tombstones == db.tombstones
    ensures Tombstoned(db', user, sources) <==> Tombstoned(db, user, sources)
  {
  }

  lemma PutIsReembed<E>(db: Db<E>, user: User, done: set<Id>, staged: seq<Record>, id: Id)
    requires Keyed(db) && done <= ActiveIds(db, user)
    requires id in ActiveIds(db, user) && id !in done && Find(staged, id).Some?
    ensures var next := db.memories[id].record.(embedding := Find(staged, id).value.embedding);
            PutMemory(Reembed(db, done, staged), next) == Reembed(db, done + {id}, staged)
  {
    hide Find;
    var now := Reembed(db, done, staged);
    var next := db.memories[id].record.(embedding := Find(staged, id).value.embedding);
    assert PutMemory(now, next).memories == Reembed(db, done + {id}, staged).memories;
  }

  /** Writing one more re-embedded row succeeds exactly when that row admits it. */
  lemma WriteOne<E>(db: Db<E>, user: User, done: set<Id>, staged: seq<Record>, id: Id)
    requires Keyed(db) && done <= ActiveIds(db, user)
    requires id in ActiveIds(db, user) && id !in done && Find(staged, id).Some?
    ensures var now := Reembed(db, done, staged);
            var r := db.memories[id].record;
            var next := r.(embedding := Find(staged, id).value.embedding);
            && now.memories[id].record == r
            && (SameSource(r, Find(staged, id).value) ==> (MemoryWriteResult(now, next).Written? <==> RowAdmits(db, staged, id)))
            && (MemoryWriteResult(now, next).Written? ==> PutMemory(now, next) == Reembed(db, done + {id}, staged))
  {
    hide Find, SameSource, PutMemory, Tombstoned;
    var now := Reembed(db, done, staged);
    SameTombstones(db, now, db.memories[id].record.user, db.memories[id].record.sources);
    PutIsReembed(db, user, done, staged, id);
  }

  /** The transaction: rows are written one by one and rolled back at the first mismatch. */
  method CutoverRows<E>(tables: MemoryTables<E>, user: User, logical: string, target: string, staged: seq<Record>)
    returns (applied: bool)
    requires Keyed(tables.db)
    modifies tables
    ensures applied == CutoverAdmits(old(tables.db), user, staged)
    ensures tables.db == Apply(old(tables.db), user, logical, target, staged)
  {
    var before := tables.db;
    if staged == [] || (exists r :: r in staged && r.user != user) {
      return false;
    }
    var current := ActiveIds(before, user);
    if |current| != |staged| {
      return false;
    }
    var done: set<Id> := {};
    while done != current
      invariant done <= current
      invariant forall id :: id in done ==> id in before.memories && RowAdmits(before, staged, id)
      invariant tables.db == Reembed(before, done, staged)
      decreases current - done
    {
      var id :| id in current && id !in done;
      var next := Find(staged, id);
      if next.None? || !SameSource(tables.db.memories[id].record, next.value) {
        assert !RowAdmits(before, staged, id);
        tables.db := before;
        return false;
      }
      WriteOne(before, user, done, staged, id);
      var written := tables.MemoryWriteRow(tables.db.memories[id].record.(embedding := next.value.embedding));
      if !written.Written? {
        assert !RowAdmits(before, staged, id);
        tables.db := before;
        return false;
      }
      done := done + {id};
    }
    tables.db := tables.db.(routes := tables.db.routes[(logical, user) := RouteTo(target, staged[0])]);
    return true;
  }
}
