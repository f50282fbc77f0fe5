/**
 Runs of the memory tables: any interleaving of commits, upserts, graph replays and their
 acknowledgements, access updates, cutovers, source tombstones and plan scrubs.
 */
module MemoryRuns {
  import opened Wrappers
  import opened Memories
  import Cutover

  datatype Event<E> =
    | Committed(logical: string, r: Record, evidence: E)
    | Upserted(r: Record)
    | Replayed(r: Record, evidence: E, leased: bool)
    | Acknowledged(user: User, id: Id, revision: nat)
    | Accessed(user: User, ids: set<Id>, now: Stamp)
    | CutOver(user: User, logical: string, target: string, staged: seq<Record>)
    | SourceForgotten(user: User, source: Source, tombstone: Tombstone)
    | Scrubbed(user: User, id: Id)

  function Step<E>(db: Db<E>, e: Event<E>): Db<E> {
    match e
    case Committed(logical, r, evidence) => Commit(db, logical, r, evidence)
    case Upserted(r) => MemoryWrite(db, r)
    case Replayed(r, evidence, leased) => Replay(db, r, evidence, leased)
    case Acknowledged(user, id, revision) => Acknowledge(db, user, id, revision)
    case Accessed(user, ids, now) => RecordAccesses(db, user, ids, now)
    case CutOver(user, logical, target, staged) => Cutover.Apply(db, user, logical, target, staged)
    case SourceForgotten(user, source, tombstone) => db.(tombstones := db.tombstones[(user, source) := tombstone])
    case Scrubbed(user, id) => db.(plans := db.plans - {(user, id)})
  }

  function Run<E>(db: Db<E>, events: seq<Event<E>>): Db<E> {
    if events == [] then db
    else Step(Run(db, events[..|events| - 1]), events[|events| - 1])
  }

  /** The step is a commit or an upsert that reaches the row. */
  predicate Writes<E>(db: Db<E>, e: Event<E>) {
    match e
    case Committed(logical, r, _) => CommitAdmits(db, logical, r)
    case Upserted(r) => MemoryWriteResult(db, r).Written?
    case _ => false
  }

  /** The active records the step writes, cutover rows included. */
  function ActiveWrites<E>(db: Db<E>, e: Event<E>): set<Record> {
    if e.CutOver? && Cutover.CutoverAdmits(db, e.user, e.staged) then
      set id | id in Cutover.ActiveIds(db, e.user) :: Step(db, e).memories[id].record
    else if Writes(db, e) && e.r.status.Active? then {e.r}
    else {}
  }

  function RunActiveWrites<E>(db: Db<E>, events: seq<Event<E>>): set<Record> {
    if events == [] then {}
    else
      RunActiveWrites(db, events[..|events| - 1])
      + ActiveWrites(Run(db, events[..|events| - 1]), events[|events| - 1])
  }

  lemma KeyedStep<E>(db: Db<E>, e: Event<E>)
    requires Keyed(db)
    ensures Keyed(Step(db, e))
  {
  }

  lemma InactiveWrite<E>(db: Db<E>, e: Event<E>, id: Id)
    requires id in db.memories && !db.memories[id].record.status.Active? && (e.Committed? || e.Upserted?)
    ensures id in Step(db, e).memories && !Step(db, e).memories[id].record.status.Active?
    ensures Step(db, e).memories[id].record.user == db.memories[id].record.user
  {
    hide Tombstoned, RouteAdmits, Storable;
  }

  lemma InactiveElse<E>(db: Db<E>, e: Event<E>, id: Id)
    requires id in db.memories && !db.memories[id].record.status.Active? && !e.Committed? && !e.Upserted?
    ensures id in Step(db, e).memories && !Step(db, e).memories[id].record.status.Active?
    ensures Step(db, e).memories[id].record.user == db.memories[id].record.user
  {
    hide ReplayAdmits, Tombstoned, Cutover.CutoverAdmits;
  }

  lemma InactiveStep<E>(db: Db<E>, e: Event<E>, id: Id)
    requires id in db.memories && !db.memories[id].record.status.Active?
    ensures id in Step(db, e).memories && !Step(db, e).memories[id].record.status.Active?
    ensures Step(db, e).memories[id].record.user == db.memories[id].record.user
  {
    hide Step;
    if e.Committed? || e.Upserted? {
      InactiveWrite(db, e, id);
    } else {
      InactiveElse(db, e, id);
    }
  }

  /** No resurrection: an id that has left Active stays inactive in every continuation, so no scope ever reads it again. */
  lemma {:induction false} InactiveForever<E>(db: Db<E>, events: seq<Event<E>>, id: Id)
    requires id in db.memories && !db.memories[id].record.status.Active?
    ensures id in Run(db, events).memories && !Run(db, events).memories[id].record.status.Active?
    ensures forall user :: !Visible(Run(db, events), user, id)
  {
    if events != [] {
      InactiveForever(db, events[..|events| - 1], id);
      InactiveStep(Run(db, events[..|events| - 1]), events[|events| - 1], id);
    }
  }

  lemma TombstonesStep<E>(db: Db<E>, e: Event<E>)
    ensures db.tombstones.Keys <= Step(db, e).tombstones.Keys
  {
  }

  lemma {:induction false} TombstonesKept<E>(db: Db<E>, events: seq<Event<E>>)
    ensures db.tombstones.Keys <= Run(db, events).tombstones.Keys
  {
    if events != [] {
      hide Step;
      TombstonesKept(db, events[..|events| - 1]);
      TombstonesStep(Run(db, events[..|events| - 1]), events[|events| - 1]);
    }
  }

  lemma ActiveWritesAreClean<E>(db: Db<E>, e: Event<E>, r: Record, source: Source)
    requires r in ActiveWrites(db, e) && source in r.sources
    ensures (r.user, source) !in db.tombstones
  {
    if e.CutOver? {
      var id :| id in Cutover.ActiveIds(db, e.user) && Step(db, e).memories[id].record == r;
      assert Cutover.RowAdmits(db, e.staged, id);
      assert r.sources == db.memories[id].record.sources;
    }
  }

  /** No active write made after a source was forgotten carries that source. */
  lemma {:induction false} ForgottenSourcesStayOut<E>(db: Db<E>, events: seq<Event<E>>, r: Record, source: Source)
    requires r in RunActiveWrites(db, events) && source in r.sources
    ensures (r.user, source) !in db.tombstones
  {
    var before := events[..|events| - 1];
    if r in RunActiveWrites(db, before) {
      ForgottenSourcesStayOut(db, before, r, source);
    } else {
      ActiveWritesAreClean(Run(db, before), events[|events| - 1], r, source);
      TombstonesKept(db, before);
    }
  }

  lemma WrittenRow<E>(db: Db<E>, e: Event<E>)
    requires Writes(db, e)
    ensures e.r.id in Step(db, e).memories && Step(db, e).memories[e.r.id].record == e.r && Step(db, e).tombstones == db.tombstones
    ensures e.r.status.Active? ==> !Tombstoned(db, e.r.user, e.r.sources)
    ensures e.r.status.Active? && e.r.id in db.memories ==> db.memories[e.r.id].record.status.Active?
    ensures e.r.id in db.memories ==> db.memories[e.r.id].record.user == e.r.user
  {
    hide Tombstoned, RouteAdmits, Storable;
  }

  lemma UnwrittenRow<E>(db: Db<E>, e: Event<E>, id: Id)
    requires id in db.memories && !(Writes(db, e) && e.r.id == id)
    ensures id in Step(db, e).memories
    ensures var r, r' := db.memories[id].record, Step(db, e).memories[id].record;
            r'.user == r.user && r'.status == r.status && r'.sources == r.sources
  {
    hide Tombstoned, ReplayAdmits, CommitAdmits, MemoryWriteResult, Cutover.CutoverAdmits;
  }

  lemma StillTombstoned<E>(db: Db<E>, db': Db<E>, user: User, sources: seq<Source>)
    requires db.tombstones.Keys <= db'.tombstones.Keys && Tombstoned(db, user, sources)
    ensures Tombstoned(db', user, sources)
  {
  }

  /**
   A row hidden only by a source tombstone is still Active, and this is the one way it can come
   back: an admitted active write of the same id, necessarily with other sources.
   */
  lemma HiddenReappearsIff<E>(db: Db<E>, e: Event<E>, user: User, id: Id)
    requires Keyed(db)
    requires id in db.memories && db.memories[id].record.user == user && !Visible(db, user, id)
    ensures Visible(Step(db, e), user, id) <==>
              (db.memories[id].record.status.Active? && Writes(db, e) && e.r.id == id && e.r.status.Active?)
  {
    hide Step, Tombstoned, CommitAdmits, MemoryWriteResult;
    var db' := Step(db, e);
    if Writes(db, e) && e.r.id == id {
      WrittenRow(db, e);
      if Tombstoned(db', user, e.r.sources) {
        StillTombstoned(db', db, user, e.r.sources);
      }
    } else {
      UnwrittenRow(db, e, id);
      TombstonesStep(db, e);
      if db.memories[id].record.status.Active? {
        StillTombstoned(db, db', user, db.memories[id].record.sources);
      }
    }
  }

  /** An admitted active write of the id. */
  predicate Reveals<E>(db: Db<E>, e: Event<E>, id: Id) {
    Writes(db, e) && e.r.id == id && e.r.status.Active?
  }

  /** One of the row's sources is forgotten, or the row is written inactive. */
  predicate Hides<E>(db: Db<E>, e: Event<E>, user: User, id: Id)
    requires id in db.memories
  {
    || (e.SourceForgotten? && e.user == user && e.source in db.memories[id].record.sources)
    || (Writes(db, e) && e.r.id == id && !e.r.status.Active?)
  }

  lemma VisibleUntilHidden<E>(db: Db<E>, e: Event<E>, user: User, id: Id)
    requires Keyed(db) && Visible(db, user, id)
    ensures Visible(Step(db, e), user, id) <==> !Hides(db, e, user, id)
  {
    hide CommitAdmits, MemoryWriteResult;
    if Writes(db, e) && e.r.id == id {
      WrittenRow(db, e);
      hide Step;
    } else {
      UnwrittenRow(db, e, id);
      if e.SourceForgotten? {
        assert e.user == user && e.source in db.memories[id].record.sources ==> Tombstoned(Step(db, e), user, db.memories[id].record.sources);
      } else {
        OnlyForgettingMarks(db, e);
        hide Step;
      }
    }
  }

  lemma OnlyForgettingMarks<E>(db: Db<E>, e: Event<E>)
    requires !e.SourceForgotten?
    ensures Step(db, e).tombstones == db.tombstones
  {
    hide CommitAdmits, MemoryWriteResult, ReplayAdmits, Cutover.CutoverAdmits;
  }

  lemma RevealedIsVisible<E>(db: Db<E>, e: Event<E>, user: User, id: Id)
    requires Reveals(db, e, id) && id in db.memories && db.memories[id].record.user == user
    ensures Visible(Step(db, e), user, id) && !Hides(db, e, user, id)
  {
    hide Step, CommitAdmits, MemoryWriteResult;
    WrittenRow(db, e);
  }

  lemma RowStays<E>(db: Db<E>, e: Event<E>, user: User, id: Id)
    requires Keyed(db) && id in db.memories && db.memories[id].record.user == user
    ensures Keyed(Step(db, e)) && id in Step(db, e).memories && Step(db, e).memories[id].record.user == user
  {
    hide Step, Keyed;
    KeyedStep(db, e);
    if Writes(db, e) && e.r.id == id {
      WrittenRow(db, e);
    } else {
      UnwrittenRow(db, e, id);
    }
  }

  lemma {:induction false} RowStaysOver<E>(db: Db<E>, events: seq<Event<E>>, user: User, id: Id)
    requires Keyed(db) && id in db.memories && db.memories[id].record.user == user
    ensures Keyed(Run(db, events)) && id in Run(db, events).memories && Run(db, events).memories[id].record.user == user
  {
    hide Step, Keyed;
    if events != [] {
      RowStaysOver(db, events[..|events| - 1], user, id);
      RowStays(Run(db, events[..|events| - 1]), events[|events| - 1], user, id);
    }
  }

  /** Step `i` of the run writes the id active, and no later step hides the row again. */
  ghost predicate RevealedFor<E>(db: Db<E>, events: seq<Event<E>>, user: User, id: Id, i: nat)
    requires i < |events|
  {
    && Reveals(Run(db, events[..i]), events[i], id)
    && forall j :: i < j < |events| ==> id in Run(db, events[..j]).memories && !Hides(Run(db, events[..j]), events[j], user, id)
  }

  lemma RevealedBefore<E>(db: Db<E>, events: seq<Event<E>>, user: User, id: Id, i: nat)
    requires i < |events| - 1 && id in Run(db, events[..|events| - 1]).memories
    ensures RevealedFor(db, events, user, id, i) <==>
            RevealedFor(db, events[..|events| - 1], user, id, i) && !Hides(Run(db, events[..|events| - 1]), events[|events| - 1], user, id)
  {
    hide Run, Reveals, Hides;
    var n := |events| - 1;
    assert forall j :: 0 <= j <= n ==> events[..n][..j] == events[..j];
  }

  /**
   Over whole runs: a hidden memory is readable at the end if and only if some step was an admitted
   active write of its id and no later step hid it again.
   */
  lemma {:induction false} HiddenReappearsOverRunIff<E>(db: Db<E>, events: seq<Event<E>>, user: User, id: Id)
    requires Keyed(db) && id in db.memories && db.memories[id].record.user == user && !Visible(db, user, id)
    ensures Visible(Run(db, events), user, id) <==> exists i :: 0 <= i < |events| && RevealedFor(db, events, user, id, i)
  {
    if events != [] {
      hide Step, Visible, Reveals, Hides, RevealedFor, Keyed;
      var n := |events| - 1;
      var before, e := Run(db, events[..n]), events[n];
      HiddenReappearsOverRunIff(db, events[..n], user, id);
      RowStaysOver(db, events[..n], user, id);
      forall i | 0 <= i < n
        ensures RevealedFor(db, events, user, id, i) <==> RevealedFor(db, events[..n], user, id, i) && !Hides(before, e, user, id)
      {
        RevealedBefore(db, events, user, id, i);
      }
      LastReveals(db, events, user, id);
      if Reveals(before, e, id) {
        RevealedIsVisible(before, e, user, id);
      }
      if Visible(before, user, id) {
        VisibleUntilHidden(before, e, user, id);
      } else {
        HiddenReappearsIff(before, e, user, id);
        OnlyReveals(before, e, id);
      }
    }
  }

  lemma LastReveals<E>(db: Db<E>, events: seq<Event<E>>, user: User, id: Id)
    requires events != []
    ensures RevealedFor(db, events, user, id, |events| - 1) <==> Reveals(Run(db, events[..|events| - 1]), events[|events| - 1], id)
  {
    hide Run, Reveals, Hides;
  }

  lemma OnlyReveals<E>(db: Db<E>, e: Event<E>, id: Id)
    requires id in db.memories
    ensures db.memories[id].record.status.Active? && Writes(db, e) && e.r.id == id && e.r.status.Active? <==> Reveals(db, e, id)
  {
    hide CommitAdmits, MemoryWriteResult;
    if Writes(db, e) {
      WrittenRow(db, e);
    }
    hide Writes, Step;
  }

  /** Such a return happens: source "a" of an active memory is forgotten, then the id is written again with source "b". */
  lemma HiddenReappearsExample(r: Record, tombstone: Tombstone, evidence: int)
    requires r.status.Active? && r.sources == ["a"] && Storable(r)
    ensures var start := Db(map[], map[], map[], map[], 0);
            var events := [Upserted(r), SourceForgotten(r.user, "a", tombstone), Committed("memories", r.(sources := ["b"]), evidence)];
            && Visible(Run(start, events[..1]), r.user, r.id)
            && !Visible(Run(start, events[..2]), r.user, r.id)
            && Visible(Run(start, events), r.user, r.id)
  {
    var start := Db(map[], map[], map[], map[], 0);
    var r' := r.(sources := ["b"]);
    var events := [Upserted(r), SourceForgotten(r.user, "a", tombstone), Committed("memories", r', evidence)];
    assert events[..3] == events && events[..2][..1] == events[..1] && events[..1][..0] == [];
    var one := Run(start, events[..1]);
    assert one == Step(Run(start, events[..1][..0]), events[..1][0]) == MemoryWrite(start, r) == PutMemory(start, r);
    var two := Run(start, events[..2]);
    assert two == one.(tombstones := map[(r.user, "a") := tombstone]);
    assert "a" in r.sources && (r.user, "a") in two.tombstones;
    assert r'.sources[0] == "b" && "b"[0] != "a"[0];
    assert !Tombstoned(two, r'.user, r'.sources);
  }

  // ---- Graph visibility ----

  /** The step stores a new graph plan for the memory. */
  predicate Plans<E>(db: Db<E>, e: Event<E>, user: User, id: Id) {
    match e
    case Committed(logical, r, _) => r.user == user && r.id == id && CommitAdmits(db, logical, r)
    case Replayed(r, _, leased) => r.user == user && r.id == id && ReplayAdmits(db, r, leased)
    case _ => false
  }

  /** What a reader of the run remembers of a memory's plans: the latest one, and whether it was acknowledged since. */
  datatype PlanHistory = NeverPlanned | Latest(revision: nat, record: Record, acknowledged: bool)

  function Remember<E>(db: Db<E>, e: Event<E>, user: User, id: Id, h: PlanHistory): PlanHistory {
    if Plans(db, e, user, id) then Latest(db.nextRevision, e.r, false)
    else if e == Scrubbed(user, id) then NeverPlanned
    else if h.Latest? && e == Acknowledged(user, id, h.revision) then h.(acknowledged := true)
    else h
  }

  function History<E>(db: Db<E>, events: seq<Event<E>>, user: User, id: Id): PlanHistory {
    if events == [] then NeverPlanned
    else
      Remember(Run(db, events[..|events| - 1]), events[|events| - 1], user, id, History(db, events[..|events| - 1], user, id))
  }

  ghost predicate Recorded<E>(db: Db<E>, user: User, id: Id, h: PlanHistory) {
    && ((user, id) in db.plans <==> h.Latest?)
    && (h.Latest? ==>
          var plan := db.plans[(user, id)];
          && plan.revision == h.revision < db.nextRevision && plan.record == h.record
          && plan.applied == (if h.acknowledged then Some(h.revision) else None))
  }

  lemma RecordedWrite<E>(db: Db<E>, e: Event<E>, user: User, id: Id, h: PlanHistory)
    requires Keyed(db) && Recorded(db, user, id, h) && (e.Committed? || e.Replayed?)
    ensures Recorded(Step(db, e), user, id, Remember(db, e, user, id, h))
  {
    hide CommitAdmits, Tombstoned;
  }

  lemma RecordedElse<E>(db: Db<E>, e: Event<E>, user: User, id: Id, h: PlanHistory)
    requires Recorded(db, user, id, h) && !e.Committed? && !e.Replayed?
    ensures Recorded(Step(db, e), user, id, Remember(db, e, user, id, h))
  {
    hide MemoryWriteResult, Cutover.CutoverAdmits;
  }

  lemma RecordedStep<E>(db: Db<E>, e: Event<E>, user: User, id: Id, h: PlanHistory)
    requires Keyed(db) && Recorded(db, user, id, h)
    ensures Recorded(Step(db, e), user, id, Remember(db, e, user, id, h))
  {
    hide Step, Recorded, Remember;
    if e.Committed? || e.Replayed? {
      RecordedWrite(db, e, user, id, h);
    } else {
      RecordedElse(db, e, user, id, h);
    }
  }

  lemma {:induction false} RecordedRun<E>(db: Db<E>, events: seq<Event<E>>, user: User, id: Id)
    requires Keyed(db) && (user, id) !in db.plans
    ensures Keyed(Run(db, events))
    ensures Recorded(Run(db, events), user, id, History(db, events, user, id))
  {
    if events != [] {
      var before := events[..|events| - 1];
      RecordedRun(db, before, user, id);
      KeyedStep(Run(db, before), events[|events| - 1]);
      RecordedStep(Run(db, before), events[|events| - 1], user, id, History(db, before, user, id));
    }
  }

  /**
   The graph returns a memory exactly when the memory is readable in the privacy scope, its latest
   plan was acknowledged under its own revision after it was stored, and the record still equals the
   plan's record up to access counts and embeddings.
   */
  lemma GraphFollowsLatestPlan<E>(db: Db<E>, events: seq<Event<E>>, user: User, id: Id, privacy: set<Privacy>)
    requires Keyed(db) && (user, id) !in db.plans
    ensures var end := Run(db, events); var h := History(db, events, user, id);
            GraphVisible(end, user, id, privacy) <==>
              && Visible(end, user, id) && end.memories[id].record.privacy in privacy
              && h.Latest? && h.acknowledged
              && SameVersion(end.memories[id].record, h.record)
  {
    RecordedRun(db, events, user, id);
    if History(db, events, user, id).Latest? && id in Run(db, events).memories {
      VersionMeans(Run(db, events).memories[id].record, History(db, events, user, id).record);
    }
  }

  /** An acknowledgement of any earlier plan leaves the tables as they are. */
  lemma StaleAcknowledgement<E>(db: Db<E>, events: seq<Event<E>>, user: User, id: Id, revision: nat)
    requires Keyed(db) && (user, id) !in db.plans
    requires History(db, events, user, id).Latest? ==> revision < History(db, events, user, id).revision
    ensures Step(Run(db, events), Acknowledged(user, id, revision)) == Run(db, events)
  {
    RecordedRun(db, events, user, id);
  }

  /** What a reader of the graph looks at in a row. */
  ghost predicate SameToReaders(a: Record, b: Record) {
    a.user == b.user && a.status == b.status && a.privacy == b.privacy && a.sources == b.sources && SourceVersion(a) == SourceVersion(b)
  }

  lemma AccessedStep<E>(db: Db<E>, user: User, ids: set<Id>, now: Stamp, id: Id)
    requires id in db.memories
    ensures id in RecordAccesses(db, user, ids, now).memories
    ensures SameToReaders(db.memories[id].record, RecordAccesses(db, user, ids, now).memories[id].record)
  {
    var r, r' := db.memories[id].record, RecordAccesses(db, user, ids, now).memories[id].record;
    assert r' == r || r' == r.(accessCount := r'.accessCount, lastAccessed := Some(now));
  }

  lemma CutOverStep<E>(db: Db<E>, user: User, logical: string, target: string, staged: seq<Record>, id: Id)
    requires id in db.memories
    ensures id in Cutover.Apply(db, user, logical, target, staged).memories
    ensures SameToReaders(db.memories[id].record, Cutover.Apply(db, user, logical, target, staged).memories[id].record)
  {
    var r, r' := db.memories[id].record, Cutover.Apply(db, user, logical, target, staged).memories[id].record;
    assert r' == r || r' == r.(embedding := r'.embedding);
  }

  /** Reads and re-embedding never change what the graph may return. */
  lemma VolatileUpdatesKeepGraph<E>(db: Db<E>, e: Event<E>, user: User, id: Id, privacy: set<Privacy>)
    requires e.Accessed? || e.CutOver?
    ensures GraphVisible(Step(db, e), user, id, privacy) <==> GraphVisible(db, user, id, privacy)
  {
    var db' := Step(db, e);
    assert db'.memories.Keys == db.memories.Keys && db'.plans == db.plans && db'.tombstones == db.tombstones;
    if id in db.memories {
      if e.Accessed? {
        AccessedStep(db, e.user, e.ids, e.now, id);
      } else {
        CutOverStep(db, e.user, e.logical, e.target, e.staged, id);
      }
      var sources := db.memories[id].record.sources;
      assert Tombstoned(db', user, sources) <==> Tombstoned(db, user, sources);
    }
  }
}
