/**
 A redaction that does not spread though its own row is redacted and every write is in time: the
 attempt stops before its cascade, and a plain request completes in its place. And that such a takeover
 and a late write are all that keeps a promised redaction from spreading.
 */
module ForgetCascades {
  import opened Wrappers
  import opened Memories
  import opened Attempts
  import opened UserLease
  import opened ForgetRedaction
  import opened ForgetSpread
  import opened ForgetParts
  import opened ForgetLapses
  import F = Forget

  /** Two memories of one user from the same source. */
  predicate Twins(r: Record, other: Record) {
    && r.id != other.id && r.user == other.user && r.status.Active? && other.status.Active? && Storable(r) && Storable(other)
    && r.sources == ["x"] && other.sources == ["x"]
  }

  /**
   "a" asks for redaction, writes its row and stops before the cascade; the lease lapses; "b" asks
   without redaction, takes the checkpoint over, cascades and completes.
   */
  function TakenOver(r: Record, other: Record): seq<Event<int>> {
    var redacting, plain := F.Request(r.user, r.id, true), F.Request(r.user, r.id, false);
    Starting("a", redacting, 1) + Writing("a", 1, ["x"]) + [Act("a", F.Crash), Tick(300)]
    + Starting("b", plain, 2) + Writing("b", 2, ["x"])
    + [Act("b", F.List), Act("b", F.Cascade(other.id, 3, "memories", 0)), Act("b", F.Settle(Success(ACKNOWLEDGED)))]
  }

  function Recorded(): F.Checkpoint {
    First().(redaction := Some(F.Change(SoftDeleted, Redacted)))
  }

  /** The row is redacted and its checkpoint is unfinished. */
  predicate Halfway(s: Sys<int>, r: Record, other: Record) {
    && s.clock == 300 && s.leases == map[r.user := Lease("a", 300)] && s.attempts.Keys == {"a"} && s.checkpoints == map[(r.user, r.id) := Recorded()]
    && s.db.memories.Keys == {r.id, other.id} && s.db.memories[other.id].record == other
    && s.db.memories[r.id].record.status.Redacted? && s.db.memories[r.id].record.sources == ["x"]
    && s.db.memories[r.id].record.user == r.user && s.db.memories[r.id].record.id == r.id && Storable(s.db.memories[r.id].record)
    && s.db.tombstones.Keys == {(r.user, "x")}
  }

  lemma RedactsThenStops(r: Record, other: Record) returns (s: Sys<int>)
    requires Twins(r, other)
    ensures So(Two(r, other), Starting("a", F.Request(r.user, r.id, true), 1) + Writing("a", 1, ["x"]) + [Act("a", F.Crash), Tick(300)], s, true, true, false)
    ensures Halfway(s, r, other)
  {
    hide So, Step, AllOnTime, Storable, Holds, F.RedactIf, F.SoftDelete;
    var start, req := Two(r, other), F.Request(r.user, r.id, true);
    FreshStarts(start);
    var s1 := Starts(start, [], start, "a", req, 1, true, true, true);
    assert [] + Starting("a", req, 1) == Starting("a", req, 1);
    FirstTaken(start.db, r, 1);
    FirstCheckpoint(r);
    var deleted := Memories.Transition(r, SoftDeleted, 1);
    assert Doing(s1, "a", req, F.Intending(req, deleted, First()));
    HoldsNow(s1, "a", req.user);
    StorableDeleted(r, 1);
    var s2 := WritesRow(start, Starting("a", req, 1), s1, "a", req, deleted, First(), 1, true, true, true);
    F.DerivedRecord(deleted, true, 1);
    WrittenStorable(deleted, true, 1);
    RecordsRedaction(deleted, 1);
    StopsAndWaits(start, Starting("a", req, 1) + Writing("a", 1, ["x"]), s2, "a");
    s := Step(Step(s2, Act("a", F.Crash)), Tick(300));
    MayTake(start, Starting("a", req, 1) + Writing("a", 1, ["x"]) + [Act("a", F.Crash), Tick(300)], s);
  }

  lemma RecordsRedaction(deleted: Record, now: Stamp)
    requires deleted.status.SoftDeleted?
    ensures F.ResolvedCheckpoint(First(), deleted, true, now) == Recorded()
  {
  }

  lemma MayTake(start: Sys<int>, trace: seq<Event<int>>, s: Sys<int>)
    requires So(start, trace, s, true, true, true)
    ensures So(start, trace, s, true, true, false)
  {
  }

  /** The masked record of a redacted row is the redacted row, and passes a plain attempt unchanged. */
  lemma PassesUnchanged(db: Db<int>, row: Record, now: Stamp)
    requires row.status.Redacted? && Storable(row)
    ensures var m := F.Protect(db, row);
            && m.status.Redacted? && Storable(m) && m.id == row.id && m.user == row.user && m.sources == row.sources
            && F.Taken(Some(Recorded()), m, now) == m && F.RedactIf(F.SoftDelete(m, now), false, now) == m
            && F.ResolvedCheckpoint(F.Next(Recorded()), m, false, now) == F.Next(Recorded())
            && F.Resumed(Some(Recorded()), m) == Recorded()
  {
  }

  lemma NoDrop(s: Sys<int>, r: Record, other: Record)
    requires Halfway(s, r, other)
    ensures var req := F.Request(r.user, r.id, false);
            !Drops(Status, s.db, req, F.Stored(F.Sys(s.db, s.checkpoints, F.Idle), req), s.db.memories[r.id].record)
  {
    F.MaskedStatus(s.db, s.db.memories[r.id].record, None, 0);
    hide F.Protect, Storable;
  }

  /** The plain attempt goes through to the redacted row. */
  lemma TakesItOver(r: Record, other: Record, trace: seq<Event<int>>, s: Sys<int>) returns (s': Sys<int>)
    requires Twins(r, other) && So(Two(r, other), trace, s, true, true, false) && Halfway(s, r, other)
    ensures var req := F.Request(r.user, r.id, false);
            && So(Two(r, other), trace + Starting("b", req, 2) + Writing("b", 2, ["x"]), s', true, true, false) && Holds(s', "b")
            && Doing(s', "b", req, F.Updated(req, F.Next(Recorded())))
            && s'.db.memories.Keys == {r.id, other.id} && s'.db.memories[other.id].record == other
            && s'.db.memories[r.id].record.sources == ["x"] && s'.db.memories[r.id].record.user == r.user
            && s'.db.tombstones == map[(r.user, "x") := Tombstone(r.id, false)]
  {
    hide So, Step, AllOnTime, Storable, Holds, F.Protect, F.RedactIf, F.SoftDelete, F.ResolvedCheckpoint, Drops, F.Taken, F.Resumed;
    var start, req, row := Two(r, other), F.Request(r.user, r.id, false), s.db.memories[r.id].record;
    assert LeaseAdmits(s, r.user, "b");
    NoDrop(s, r, other);
    var s1 := Starts(start, trace, s, "b", req, 2, true, true, false);
    var m := F.Protect(s.db, row);
    PassesUnchanged(s.db, row, 2);
    assert Doing(s1, "b", req, F.Intending(req, m, F.Next(Recorded())));
    HoldsNow(s1, "b", req.user);
    s' := WritesRow(start, trace + Starting("b", req, 2), s1, "b", req, m, F.Next(Recorded()), 2, true, true, false);
  }

  /** It cascades without redaction and completes. */
  lemma CascadesPlainly(r: Record, other: Record, trace: seq<Event<int>>, s: Sys<int>) returns (s': Sys<int>)
    requires var req := F.Request(r.user, r.id, false);
             && Twins(r, other) && So(Two(r, other), trace, s, true, true, false) && Holds(s, "b")
             && Doing(s, "b", req, F.Updated(req, F.Next(Recorded())))
             && s.db.memories.Keys == {r.id, other.id} && s.db.memories[other.id].record == other
             && s.db.memories[r.id].record.sources == ["x"] && s.db.memories[r.id].record.user == r.user
             && s.db.tombstones == map[(r.user, "x") := Tombstone(r.id, false)]
    ensures So(Two(r, other), trace + [Act("b", F.List), Act("b", F.Cascade(other.id, 3, "memories", 0)), Act("b", F.Settle(Success(ACKNOWLEDGED)))], s', true, true, false)
    ensures Promises(s'.checkpoints, r.user, r.id) && s'.db.tombstones == s.db.tombstones && r.id in s'.db.memories && other.id in s'.db.memories
    ensures s'.db.memories[r.id].record.sources == ["x"] && s'.db.memories[other.id].record == Memories.Transition(other, SoftDeleted, 3)
  {
    hide So, Step, AllOnTime, Storable, Holds, F.RedactIf, F.SoftDelete, F.Shares;
    var start, req, c := Two(r, other), F.Request(r.user, r.id, false), F.Next(Recorded());
    var s1 := Step(s, Act("b", F.List));
    Lists(s, "b", req, c);
    GoOn(start, trace, s, "b", F.List, req, true, true, false);
    SharesSource(other);
    assert Listed(s.db, req, ["x"], other.id);
    assert s1.attempts["b"].phase.listed == map[other.id := other];
    var s2 := Step(s1, Act("b", F.Cascade(other.id, 3, "memories", 0)));
    Cascades(s1, "b", req, c, ["x"], map[other.id := other], other.id, 3);
    GoOn(start, trace + [Act("b", F.List)], s1, "b", F.Cascade(other.id, 3, "memories", 0), req, true, true, false);
    assert map[other.id := other] - {other.id} == map[];
    s' := Step(s2, Act("b", F.Settle(Success(ACKNOWLEDGED))));
    Settles(s2, "b", req, c, ["x"]);
    GoOn(start, trace + [Act("b", F.List)] + [Act("b", F.Cascade(other.id, 3, "memories", 0))], s2, "b", F.Settle(Success(ACKNOWLEDGED)), req, true, true, false);
    PlainlyDeleted(other, 3);
    assert trace + [Act("b", F.List)] + [Act("b", F.Cascade(other.id, 3, "memories", 0))] + [Act("b", F.Settle(Success(ACKNOWLEDGED)))]
        == trace + [Act("b", F.List), Act("b", F.Cascade(other.id, 3, "memories", 0)), Act("b", F.Settle(Success(ACKNOWLEDGED)))];
  }

  lemma SharesSource(other: Record)
    requires other.sources == ["x"]
    ensures F.Shares(["x"], other)
  {
    assert "x" in other.sources;
  }

  lemma PlainlyDeleted(other: Record, now: Stamp)
    requires other.status.Active?
    ensures F.RedactIf(F.SoftDelete(other, now), false, now) == Memories.Transition(other, SoftDeleted, now)
  {
  }

  /**
   A redaction does not spread, with every write in time and no redaction of the row itself dropped: the
   checkpoint is completed and speaks of a redaction, while another row from the forgotten source is
   only soft-deleted and reads with its content.
   */
  lemma TakenOverExample(r: Record, other: Record)
    requires Twins(r, other)
    ensures var end := Run(Two(r, other), TakenOver(r, other));
            && Start(Two(r, other)) && AllOnTime(Two(r, other), TakenOver(r, other)) && NeverDrops(Two(r, other), TakenOver(r, other))
            && Promises(end.checkpoints, r.user, r.id) && !Spread(end.db, r.user, r.id)
            && other.id in end.db.memories && end.db.memories[other.id].record.status.SoftDeleted?
            && F.Protect(end.db, end.db.memories[other.id].record).content == other.content
  {
    hide Step, AllOnTime, NeverDrops, Run, Storable, F.Protect, Halfway;
    var redacting, plain := F.Request(r.user, r.id, true), F.Request(r.user, r.id, false);
    FreshStarts(Two(r, other));
    var s1 := RedactsThenStops(r, other);
    var t1 := Starting("a", redacting, 1) + Writing("a", 1, ["x"]) + [Act("a", F.Crash), Tick(300)];
    var s2 := TakesItOver(r, other, t1, s1);
    var t2 := t1 + Starting("b", plain, 2) + Writing("b", 2, ["x"]);
    var s3 := CascadesPlainly(r, other, t2, s2);
    SharesSource(s3.db.memories[other.id].record);
    Unmasked(s3.db, r.id, s3.db.memories[other.id].record);
    NotSpread(s3.db, r.user, r.id, other.id);
    assert t2 + [Act("b", F.List), Act("b", F.Cascade(other.id, 3, "memories", 0)), Act("b", F.Settle(Success(ACKNOWLEDGED)))] == TakenOver(r, other);
  }

  /** Without a redacting tombstone the content is read as it is stored. */
  lemma Unmasked(db: Db<int>, id: Id, row: Record)
    requires row.status.SoftDeleted? && db.tombstones == map[(row.user, "x") := Tombstone(id, false)]
    ensures F.Protect(db, row).content == row.content
  {
  }

  lemma NotSpread(db: Db<int>, user: User, id: Id, other: Id)
    requires id in db.memories && other in db.memories && db.memories[other].record.user == user && db.memories[other].record.status.SoftDeleted?
    requires F.Shares(db.memories[id].record.sources, db.memories[other].record)
    ensures !Spread(db, user, id)
  {
  }

  // ---- Exactly when a promised redaction spreads ----

  /** In every such run, a completed checkpoint that speaks of a redaction finds it spread. */
  ghost predicate SpreadsOver(late: bool, takes: bool) {
    forall s, events, user, id :: Within(s, events, late, false) && (takes || NeverTakes(s, events)) ==> Kept(Run(s, events), user, id)
  }

  predicate Kept(s: Sys<int>, user: User, id: Id) {
    Promises(s.checkpoints, user, id) ==> Spread(s.db, user, id)
  }

  /**
   Among runs that drop no redaction of a row, a redaction that a completed checkpoint speaks of has
   spread to all rows with its sources if and only if no attempt writes late and no plain request takes
   over an unfinished redaction.
   */
  lemma SpreadsIff(late: bool, takes: bool)
    ensures SpreadsOver(late, takes) <==> !late && !takes
  {
    hide Run, AllOnTime, NeverDrops, NeverTakes;
    if late {
      var r := Sample("r", []);
      UndoneRedactionExample(r);
      assert Within(One(r), UndoneRedaction(r), late, false) && !Kept(Run(One(r), UndoneRedaction(r)), r.user, r.id);
    } else if takes {
      var r, other := Sample("r", ["x"]), Sample("o", ["x"]);
      TakenOverExample(r, other);
      assert Within(Two(r, other), TakenOver(r, other), late, false) && !Kept(Run(Two(r, other), TakenOver(r, other)), r.user, r.id);
    } else {
      forall s, events, user, id | Within(s, events, late, false) && NeverTakes(s, events)
        ensures Kept(Run(s, events), user, id)
      {
        PromisesKept(s, events, user, id);
      }
    }
  }
}
