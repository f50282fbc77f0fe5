/**
 What goes wrong, by concrete runs: a redaction dropped by a plain attempt, a redaction undone by an
 attempt that writes after its lease lapsed, and a completed forget whose row a late cascade puts back
 to other sources. And that these two, a drop and a late write, are all that can go wrong with the row
 itself; ForgetCascades is about the rows beside it.
 */
module ForgetLapses {
  import opened Wrappers
  import opened Memories
  import opened ForgetIntent
  import opened Attempts
  import opened UserLease
  import opened ForgetRuns
  import opened ForgetRedaction
  import opened ForgetSpread
  import opened ForgetRepeats
  import opened ForgetParts
  import F = Forget
  import Runs = MemoryRuns

  // ---- A dropped redaction ----

  /** A start state with these memories and nothing else. */
  function Fresh(memories: map<Id, Row>): Sys<int> {
    Sys(Db(memories, map[], map[], map[], 0), map[], map[], map[], 0)
  }

  function One(r: Record): Sys<int> {
    Fresh(map[r.id := Row(r, r.createdAt)])
  }

  lemma FreshStarts(s: Sys<int>)
    requires s == Fresh(s.db.memories) && Keyed(s.db)
    requires forall id :: id in s.db.memories ==> !F.Inactive(s.db.memories[id].record)
    ensures Start(s)
    ensures So(s, [], s, true, true, true)
  {
  }

  /** "a" asks for redaction and stops before it writes the row; the lease lapses; "b" asks without redaction; "c" asks for redaction again. */
  function DroppedRedaction(r: Record): seq<Event<int>> {
    var redacting, plain := F.Request(r.user, r.id, true), F.Request(r.user, r.id, false);
    Starting("a", redacting, 1) + [Act("a", F.SaveIntent), Act("a", F.Resolve(1)), Act("a", F.Crash), Tick(300)]
    + Starting("b", plain, 2) + Writing("b", 2, r.sources) + Finishing("b") + [Tick(600)] + Starting("c", redacting, 3)
  }

  /** The first attempt on an active memory has decided to go on. */
  lemma FirstStarts(r: Record, w: Owner, req: F.Request, now: Stamp) returns (s: Sys<int>)
    requires r.status.Active? && req.user == r.user && req.id == r.id
    ensures So(One(r), Starting(w, req, now), s, true, true, true) && Holds(s, w)
    ensures s.db == One(r).db && s.clock == 0 && s.leases == map[r.user := Lease(w, 300)] && s.attempts.Keys == {w} && s.checkpoints == map[]
    ensures Doing(s, w, req, F.Intending(req, Memories.Transition(r, SoftDeleted, now), First()))
  {
    hide So, Step, F.Resumed, F.Next;
    var start := One(r);
    FreshStarts(start);
    s := Starts(start, [], start, w, req, now, true, true, true);
    assert [] + Starting(w, req, now) == Starting(w, req, now);
    assert !Tombstoned(start.db, r.user, r.sources);
    FirstCheckpoint(r);
  }

  /** A first attempt's checkpoint, with its first save counted. */
  function First(): F.Checkpoint {
    F.Checkpoint(F.Change(Active, SoftDeleted), None, [], false, 1, None)
  }

  lemma FirstTaken(db: Db<int>, r: Record, now: Stamp)
    requires r.status.Active? && forall source :: source in r.sources ==> (r.user, source) !in db.tombstones
    ensures F.Protect(db, r) == r && F.Taken(None, r, now) == Memories.Transition(r, SoftDeleted, now)
  {
  }

  lemma FirstCheckpoint(r: Record)
    requires r.status.Active?
    ensures F.Next(F.Resumed(None, r)) == First()
  {
  }

  /** The stopped attempt's checkpoint speaks of the redaction. */
  lemma RedactThenStop(r: Record) returns (s: Sys<int>)
    requires r.status.Active? && r.sources == [] && Storable(r)
    ensures var redacting := F.Request(r.user, r.id, true);
            So(One(r), Starting("a", redacting, 1) + [Act("a", F.SaveIntent), Act("a", F.Resolve(1)), Act("a", F.Crash), Tick(300)], s, true, true, true)
    ensures s.db == One(r).db && s.clock == 300 && s.leases == map[r.user := Lease("a", 300)] && s.attempts.Keys == {"a"}
    ensures s.checkpoints == map[(r.user, r.id) := First().(redaction := Some(F.Change(SoftDeleted, Redacted)))]
  {
    hide So, Step, Storable, AllOnTime, Holds;
    var start, req := One(r), F.Request(r.user, r.id, true);
    var s1 := FirstStarts(r, "a", req, 1);
    var t1, deleted := Starting("a", req, 1), Memories.Transition(r, SoftDeleted, 1);
    var s2 := Step(s1, Act("a", F.SaveIntent));
    Saves(s1, "a", req, deleted, First());
    GoOn(start, t1, s1, "a", F.SaveIntent, req, true, true, true);
    var s3 := Step(s2, Act("a", F.Resolve(1)));
    Resolves(s2, "a", req, deleted, First(), 1);
    GoOn(start, t1 + [Act("a", F.SaveIntent)], s2, "a", F.Resolve(1), req, true, true, true);
    StopsAndWaits(start, t1 + [Act("a", F.SaveIntent)] + [Act("a", F.Resolve(1))], s3, "a");
    s := Step(Step(s3, Act("a", F.Crash)), Tick(300));
    assert t1 + [Act("a", F.SaveIntent)] + [Act("a", F.Resolve(1))] + [Act("a", F.Crash), Tick(300)]
        == t1 + [Act("a", F.SaveIntent), Act("a", F.Resolve(1)), Act("a", F.Crash), Tick(300)];
  }

  lemma StopsAndWaits(start: Sys<int>, trace: seq<Event<int>>, s: Sys<int>, w: Owner)
    requires So(start, trace, s, true, true, true) && w in s.attempts && s.clock <= 300
    ensures var s' := Step(Step(s, Act(w, F.Crash)), Tick(300));
            && So(start, trace + [Act(w, F.Crash), Tick(300)], s', true, true, true)
            && s' == s.(attempts := s.attempts[w := s.attempts[w].(phase := F.Stopped)], clock := 300)
  {
    hide So;
    Go(start, trace, s, Act(w, F.Crash), true, true, true);
    Go(start, trace + [Act(w, F.Crash)], Step(s, Act(w, F.Crash)), Tick(300), true, true, true);
    assert trace + [Act(w, F.Crash)] + [Tick(300)] == trace + [Act(w, F.Crash), Tick(300)];
  }

  /** No other row carries a source of a memory without sources, or of one that is alone. */
  lemma Alone(db: Db<int>, req: F.Request)
    requires req.id in db.memories && db.memories.Keys == {req.id}
    ensures forall id :: !Listed(db, req, db.memories[req.id].record.sources, id)
  {
  }

  /** The plain attempt takes the stopped one's checkpoint over and completes. */
  lemma PlainTakesOver(r: Record, trace: seq<Event<int>>, s: Sys<int>) returns (end: Sys<int>)
    requires r.status.Active? && r.sources == [] && Storable(r) && So(One(r), trace, s, true, false, false)
    requires s.db == One(r).db && s.clock == 300 && s.leases == map[r.user := Lease("a", 300)] && s.attempts.Keys == {"a"}
    requires s.checkpoints == map[(r.user, r.id) := First().(redaction := Some(F.Change(SoftDeleted, Redacted)))]
    ensures var plain := F.Request(r.user, r.id, false);
            So(One(r), trace + Starting("b", plain, 2) + Writing("b", 2, []) + Finishing("b"), end, true, false, false)
    ensures end.clock == 300 && end.leases == map[r.user := Lease("b", 600)] && end.attempts.Keys == {"a", "b"}
    ensures end.db.memories == map[r.id := Row(r.(status := SoftDeleted, updatedAt := 2), r.createdAt)]
    ensures (r.user, r.id) in end.checkpoints && end.checkpoints[(r.user, r.id)].completed && end.checkpoints[(r.user, r.id)].redaction.Some?
  {
    hide So, Step, AllOnTime, Storable, MarkedBy;
    var start, req := One(r), F.Request(r.user, r.id, false);
    var s1 := Starts(start, trace, s, "b", req, 2, true, false, false);
    var t1 := trace + Starting("b", req, 2);
    assert !Tombstoned(s.db, r.user, r.sources);
    var c := s1.attempts["b"].phase.c;
    assert Doing(s1, "b", req, F.Intending(req, r, c)) && c.redaction.Some? && c.receipts == [];
    var s2 := WritesRow(start, t1, s1, "b", req, r, c, 2, true, false, false);
    Alone(s2.db, req);
    end := Finishes(start, t1 + Writing("b", 2, r.sources), s2, "b", req, s2.attempts["b"].phase.c, true, false, false);
  }

  /** Asking again, after the last lease has run out. */
  lemma AsksAgain(start: Sys<int>, trace: seq<Event<int>>, s: Sys<int>, w: Owner, req: F.Request, now: Stamp) returns (end: Sys<int>)
    requires So(start, trace, s, true, false, false) && w !in s.attempts
    requires req.user in s.leases && s.clock <= s.leases[req.user].until <= 600
    requires F.Key(req) in s.checkpoints && s.checkpoints[F.Key(req)].completed && s.checkpoints[F.Key(req)].redaction.Some?
    requires req.id in s.db.memories && s.db.memories[req.id].record.user == req.user
    ensures So(start, trace + [Tick(600)] + Starting(w, req, now), end, true, false, false)
    ensures end.db == s.db && end.checkpoints == s.checkpoints
    ensures w in end.attempts && end.attempts[w].phase == F.Answered(req, s.checkpoints[F.Key(req)])
  {
    hide So;
    var s1 := Step(s, Tick(600));
    Go(start, trace, s, Tick(600), true, false, false);
    LeaseOver(s, req);
    hide Step, AnswerStands, LeaseAdmits;
    AskedFinds(s1, w, req, now, s.checkpoints[F.Key(req)]);
    end := Asked(s1, w, req, now);
    Asks(start, trace + [Tick(600)], s1, w, req, now);
  }

  lemma LeaseOver(s: Sys<int>, req: F.Request)
    requires req.user in s.leases && s.clock <= s.leases[req.user].until <= 600
    requires F.Key(req) in s.checkpoints && s.checkpoints[F.Key(req)].completed && s.checkpoints[F.Key(req)].redaction.Some?
    requires req.id in s.db.memories && s.db.memories[req.id].record.user == req.user
    ensures Step(s, Tick(600)) == s.(clock := 600)
    ensures AnswerStands(s.(clock := 600), req, s.checkpoints[F.Key(req)])
    ensures forall w :: LeaseAdmits(s.(clock := 600), req.user, w)
  {
  }

  lemma Asks(start: Sys<int>, trace: seq<Event<int>>, s: Sys<int>, w: Owner, req: F.Request, now: Stamp)
    requires So(start, trace, s, true, false, false)
    ensures So(start, trace + Starting(w, req, now), Asked(s, w, req, now), true, false, false)
  {
    hide So, Step;
    var s1 := Step(s, Claim(w, req));
    Go(start, trace, s, Claim(w, req), true, false, false);
    var s2 := Step(s1, Act(w, F.Begin(req)));
    Go(start, trace + [Claim(w, req)], s1, Act(w, F.Begin(req)), true, false, false);
    var s3 := Step(s2, Act(w, F.Load));
    Go(start, trace + [Claim(w, req)] + [Act(w, F.Begin(req))], s2, Act(w, F.Load), true, false, false);
    Go(start, trace + [Claim(w, req)] + [Act(w, F.Begin(req))] + [Act(w, F.Load)], s3, Act(w, F.Decide(now)), true, false, false);
    assert trace + [Claim(w, req)] + [Act(w, F.Begin(req))] + [Act(w, F.Load)] + [Act(w, F.Decide(now))] == trace + Starting(w, req, now);
  }

  /** A completed checkpoint speaks of a redaction, and the row keeps its status and its content. */
  predicate Unredacted(r: Record, s: Sys<int>) {
    && (r.user, r.id) in s.checkpoints && s.checkpoints[(r.user, r.id)].completed && s.checkpoints[(r.user, r.id)].redaction.Some?
    && r.id in s.db.memories && s.db.memories[r.id].record.status.SoftDeleted? && s.db.memories[r.id].record.content == r.content
  }

  /**
   A redaction is dropped, with every write in time: after a redacting attempt stopped and a plain one
   completed, the redacting request is answered as completed while the row keeps its content.
   */
  lemma DroppedRedactionExample(r: Record)
    requires r.status.Active? && r.sources == [] && Storable(r)
    ensures var end := Run(One(r), DroppedRedaction(r)); var redacting := F.Request(r.user, r.id, true);
            && Start(One(r)) && AllOnTime(One(r), DroppedRedaction(r))
            && "c" in end.attempts && end.attempts["c"].phase.Answered? && end.attempts["c"].phase.req == redacting
            && end.attempts["c"].phase.c.completed && Unredacted(r, end)
  {
    hide Step, AllOnTime, NeverDrops, Run;
    var redacting, plain := F.Request(r.user, r.id, true), F.Request(r.user, r.id, false);
    FreshStarts(One(r));
    var s1 := RedactThenStop(r);
    var t1 := Starting("a", redacting, 1) + [Act("a", F.SaveIntent), Act("a", F.Resolve(1)), Act("a", F.Crash), Tick(300)];
    var s2 := PlainTakesOver(r, t1, s1);
    var t2 := t1 + Starting("b", plain, 2) + Writing("b", 2, []) + Finishing("b");
    var s3 := AsksAgain(One(r), t2, s2, "c", redacting, 3);
    assert t2 + [Tick(600)] + Starting("c", redacting, 3) == DroppedRedaction(r);
  }

  // ---- An undone redaction ----

  /**
   "a" asks without redaction, reads the row and stalls; the lease lapses; "b" asks for redaction and
   writes the row; "a" goes on; "b" finishes.
   */
  function UndoneRedaction(r: Record): seq<Event<int>> {
    var plain, redacting := F.Request(r.user, r.id, false), F.Request(r.user, r.id, true);
    Starting("a", plain, 1) + [Tick(300)] + Starting("b", redacting, 2) + Writing("b", 2, r.sources)
    + Writing("a", 3, r.sources) + Finishing("b")
  }

  /** "b" redacts the row while "a" is stalled before its first save. */
  lemma RedactsPast(r: Record, s: Sys<int>) returns (end: Sys<int>)
    requires r.status.Active? && r.sources == [] && Storable(r)
    requires So(One(r), Starting("a", F.Request(r.user, r.id, false), 1), s, true, true, true)
    requires s.db == One(r).db && s.clock == 0 && s.leases == map[r.user := Lease("a", 300)] && s.attempts.Keys == {"a"} && s.checkpoints == map[]
    ensures var redacting := F.Request(r.user, r.id, true);
            && So(One(r), Starting("a", F.Request(r.user, r.id, false), 1) + [Tick(300)] + Starting("b", redacting, 2) + Writing("b", 2, []), end, true, true, true)
            && end.clock == 300 && end.leases == map[r.user := Lease("b", 600)] && end.attempts.Keys == {"a", "b"} && end.attempts["a"] == s.attempts["a"]
            && Doing(end, "b", redacting, F.Updated(redacting, First().(redaction := Some(F.Change(SoftDeleted, Redacted)))))
            && end.db.memories.Keys == {r.id} && end.db.memories[r.id].record.user == r.user
            && end.db.memories[r.id].record.status.Redacted? && end.db.memories[r.id].record.sources == []
  {
    hide So, Step, AllOnTime, Storable, MarkedBy, Holds;
    var start, req, t0 := One(r), F.Request(r.user, r.id, true), Starting("a", F.Request(r.user, r.id, false), 1);
    var s1 := s.(clock := 300);
    assert Step(s, Tick(300)) == s1 by {
      Ticks(s, 300);
    }
    Go(start, t0, s, Tick(300), true, true, true);
    assert LeaseAdmits(s1, r.user, "b");
    var s2 := Starts(start, t0 + [Tick(300)], s1, "b", req, 2, true, true, true);
    assert !Tombstoned(s.db, r.user, r.sources);
    FirstCheckpoint(r);
    var deleted := Memories.Transition(r, SoftDeleted, 2);
    assert Doing(s2, "b", req, F.Intending(req, deleted, First()));
    HoldsNow(s2, "b", req.user);
    StorableDeleted(r, 2);
    end := WritesRow(start, t0 + [Tick(300)] + Starting("b", req, 2), s2, "b", req, deleted, First(), 2, true, true, true);
  }

  lemma Ticks(s: Sys<int>, now: Time)
    requires s.clock <= now
    ensures Step(s, Tick(now)) == s.(clock := now)
  {
  }

  lemma HoldsNow(s: Sys<int>, w: Owner, user: User)
    requires w in s.attempts && s.attempts[w].req.user == user && user in s.leases && s.leases[user] == Claimed(w, s.clock)
    ensures Holds(s, w)
  {
  }

  lemma StorableDeleted(r: Record, now: Stamp)
    requires Storable(r) && r.status.Active?
    ensures Storable(Memories.Transition(r, SoftDeleted, now))
  {
  }

  /**
   A redaction is undone by a write after the lease lapsed, though no request drops one: the redacting
   request completes over a row that the late plain attempt has put back with its content.
   */
  lemma UndoneRedactionExample(r: Record)
    requires r.status.Active? && r.sources == [] && Storable(r)
    ensures var end := Run(One(r), UndoneRedaction(r)); var redacting := F.Request(r.user, r.id, true);
            && Start(One(r)) && NeverDrops(One(r), UndoneRedaction(r)) && NeverTakes(One(r), UndoneRedaction(r))
            && "b" in end.attempts && end.attempts["b"].phase.Answered? && end.attempts["b"].phase.req == redacting
            && end.attempts["b"].phase.c.completed && Unredacted(r, end)
  {
    hide Step, AllOnTime, NeverDrops, NeverTakes, Run, So, Storable, MarkedBy, Holds;
    var start, plain, redacting := One(r), F.Request(r.user, r.id, false), F.Request(r.user, r.id, true);
    FreshStarts(start);
    var s1 := FirstStarts(r, "a", plain, 1);
    var s2 := RedactsPast(r, s1);
    var t2 := Starting("a", plain, 1) + [Tick(300)] + Starting("b", redacting, 2) + Writing("b", 2, []);
    Late(start, t2, s2);
    var deleted := Memories.Transition(r, SoftDeleted, 1);
    StorableDeleted(r, 1);
    var s3 := WritesRow(start, t2, s2, "a", plain, deleted, First(), 3, false, true, true);
    var t3 := t2 + Writing("a", 3, []);
    Alone(s3.db, redacting);
    var s4 := Finishes(start, t3, s3, "b", redacting, s3.attempts["b"].phase.c, false, true, true);
    Arrives(start, t3 + Finishing("b"), s4);
    assert t3 + Finishing("b") == UndoneRedaction(r);
  }

  lemma Late(start: Sys<int>, trace: seq<Event<int>>, s: Sys<int>)
    requires So(start, trace, s, true, true, true)
    ensures So(start, trace, s, false, true, true)
  {
  }

  lemma Arrives(start: Sys<int>, trace: seq<Event<int>>, s: Sys<int>)
    requires So(start, trace, s, false, true, true)
    ensures Run(start, trace) == s && NeverDrops(start, trace) && NeverTakes(start, trace)
  {
  }

  // ---- A late cascade ----

  /** Two memories of one user that share a source; the second has another one besides. */
  predicate Pair(r: Record, other: Record) {
    && r.id != other.id && r.user == other.user && r.status.Active? && other.status.Active? && Storable(r) && Storable(other)
    && r.sources == ["x"] && other.sources == ["x", "y"]
  }

  function Two(r: Record, other: Record): Sys<int>
    requires r.id != other.id
  {
    Fresh(map[r.id := Row(r, r.createdAt), other.id := Row(other, other.createdAt)])
  }

  /**
   "a" forgets one memory and has listed the other for its cascade; the other is rewritten from a new
   source; the lease lapses; "b" forgets the other and completes; "a" goes on with its cascade.
   */
  function LateCascade(r: Record, other: Record): seq<Event<int>> {
    var first, second := F.Request(r.user, r.id, false), F.Request(r.user, other.id, false);
    Starting("a", first, 1) + Writing("a", 1, ["x"])
    + [Act("a", F.List), Env(Runs.Upserted(other.(sources := ["z"]))), Tick(300)]
    + Starting("b", second, 2) + Writing("b", 2, ["z"]) + Finishing("b")
    + [Act("a", F.Cascade(other.id, 3, "memories", 0))]
  }

  /** "a" has written its row, with the other row as it was. */
  lemma ForgetsFirst(r: Record, other: Record) returns (s: Sys<int>)
    requires Pair(r, other)
    ensures var req := F.Request(r.user, r.id, false);
            && So(Two(r, other), Starting("a", req, 1) + Writing("a", 1, ["x"]), s, true, true, true)
            && Doing(s, "a", req, F.Updated(req, First())) && s.clock == 0 && s.leases == map[r.user := Lease("a", 300)] && s.attempts.Keys == {"a"}
            && s.db.memories.Keys == {r.id, other.id} && s.db.memories[other.id].record == other
            && s.db.memories[r.id].record.sources == ["x"] && s.db.memories[r.id].record.user == r.user
            && s.db.tombstones == map[(r.user, "x") := Tombstone(r.id, false)] && s.checkpoints.Keys == {(r.user, r.id)}
  {
    hide So, Step, AllOnTime, Storable, Holds;
    var start, req := Two(r, other), F.Request(r.user, r.id, false);
    FreshStarts(start);
    var s1 := Starts(start, [], start, "a", req, 1, true, true, true);
    assert [] + Starting("a", req, 1) == Starting("a", req, 1);
    assert !Tombstoned(start.db, r.user, r.sources);
    FirstCheckpoint(r);
    var deleted := Memories.Transition(r, SoftDeleted, 1);
    assert Doing(s1, "a", req, F.Intending(req, deleted, First()));
    HoldsNow(s1, "a", req.user);
    StorableDeleted(r, 1);
    s := WritesRow(start, Starting("a", req, 1), s1, "a", req, deleted, First(), 1, true, true, true);
  }

  /** "a" has listed the other row, which is then rewritten from another source; the lease lapses. */
  lemma ListsThenMoves(r: Record, other: Record, s: Sys<int>) returns (s': Sys<int>)
    requires Pair(r, other)
    requires var req := F.Request(r.user, r.id, false);
             && So(Two(r, other), Starting("a", req, 1) + Writing("a", 1, ["x"]), s, true, true, true)
             && Doing(s, "a", req, F.Updated(req, First())) && s.clock == 0 && s.leases == map[r.user := Lease("a", 300)] && s.attempts.Keys == {"a"}
             && s.db.memories.Keys == {r.id, other.id} && s.db.memories[other.id].record == other
             && s.db.memories[r.id].record.sources == ["x"] && s.db.memories[r.id].record.user == r.user
             && s.db.tombstones == map[(r.user, "x") := Tombstone(r.id, false)] && s.checkpoints.Keys == {(r.user, r.id)}
    ensures var req := F.Request(r.user, r.id, false);
            && So(Two(r, other), Starting("a", req, 1) + Writing("a", 1, ["x"]) + [Act("a", F.List), Env(Runs.Upserted(other.(sources := ["z"]))), Tick(300)], s', true, true, true)
            && Doing(s', "a", req, F.Propagating(req, First(), ["x"], map[other.id := other], false))
            && s'.clock == 300 && s'.leases == s.leases && s'.attempts.Keys == {"a"} && s'.checkpoints == s.checkpoints
            && s'.db.tombstones == s.db.tombstones && s'.db.memories.Keys == {r.id, other.id}
            && s'.db.memories[r.id] == s.db.memories[r.id] && s'.db.memories[other.id].record == other.(sources := ["z"])
  {
    hide So, Step, AllOnTime, Storable, F.Shares;
    var start, req := Two(r, other), F.Request(r.user, r.id, false);
    var t := Starting("a", req, 1) + Writing("a", 1, ["x"]);
    var s1 := Step(s, Act("a", F.List));
    Lists(s, "a", req, First());
    Go(start, t, s, Act("a", F.List), true, true, true);
    SharesFirst(other);
    assert Listed(s.db, req, ["x"], other.id);
    assert s1.attempts["a"].phase.listed == map[other.id := other];
    var moved := Env(Runs.Upserted(other.(sources := ["z"])));
    var s2 := Step(s1, moved);
    Moves(s1, other);
    Go(start, t + [Act("a", F.List)], s1, moved, true, true, true);
    s' := Step(s2, Tick(300));
    Ticks(s2, 300);
    Go(start, t + [Act("a", F.List)] + [moved], s2, Tick(300), true, true, true);
    assert t + [Act("a", F.List)] + [moved] + [Tick(300)] == t + [Act("a", F.List), moved, Tick(300)];
  }

  lemma SharesFirst(other: Record)
    requires other.sources == ["x", "y"]
    ensures F.Shares(["x"], other)
  {
    assert "x" in other.sources;
  }

  lemma Moves(s: Sys<int>, other: Record)
    requires other.id in s.db.memories && s.db.memories[other.id].record == other && other.status.Active? && Storable(other)
    requires (other.user, "z") !in s.db.tombstones
    ensures var moved := other.(sources := ["z"]);
            Step(s, Env(Runs.Upserted(moved))) == s.(db := s.db.(memories := s.db.memories[other.id := s.db.memories[other.id].(record := moved)]))
  {
  }

  /** "b" forgets the rewritten row and completes, while "a" is about to cascade. */
  lemma CompletesMoved(r: Record, other: Record, trace: seq<Event<int>>, s: Sys<int>, req: F.Request) returns (s': Sys<int>)
    requires Pair(r, other) && So(Two(r, other), trace, s, true, true, true) && req == F.Request(r.user, other.id, false)
    requires s.clock == 300 && s.leases == map[r.user := Lease("a", 300)] && s.attempts.Keys == {"a"} && s.checkpoints.Keys == {(r.user, r.id)}
    requires s.db.memories.Keys == {r.id, other.id} && s.db.memories[other.id].record == other.(sources := ["z"])
    requires s.db.memories[r.id].record.sources == ["x"] && s.db.tombstones == map[(r.user, "x") := Tombstone(r.id, false)]
    ensures So(Two(r, other), trace + Starting("b", req, 2) + Writing("b", 2, ["z"]) + Finishing("b"), s', true, true, true)
    ensures s'.attempts.Keys == {"a", "b"} && s'.attempts["a"] == s.attempts["a"] && s'.leases == map[r.user := Lease("b", 600)] && s'.clock == 300
    ensures F.Key(req) in s'.checkpoints && s'.checkpoints[F.Key(req)].completed
    ensures s'.db.tombstones.Keys == {(r.user, "x"), (r.user, "z")} && other.id in s'.db.memories && s'.db.memories[other.id].record.user == r.user
  {
    hide So, Step, AllOnTime, Storable, Holds, Listed, F.RedactIf, F.SoftDelete;
    var start, moved := Two(r, other), other.(sources := ["z"]);
    assert LeaseAdmits(s, r.user, "b");
    var s1 := Starts(start, trace, s, "b", req, 2, true, true, true);
    FirstTaken(s.db, moved, 2);
    FirstCheckpoint(moved);
    var deleted := Memories.Transition(moved, SoftDeleted, 2);
    assert Doing(s1, "b", req, F.Intending(req, deleted, First()));
    HoldsNow(s1, "b", req.user);
    StorableMoved(other);
    StorableDeleted(moved, 2);
    var s2 := WritesRow(start, trace + Starting("b", req, 2), s1, "b", req, deleted, First(), 2, true, true, true);
    F.DerivedRecord(deleted, false, 2);
    Unshared(s2.db, req, r.id, other.id);
    s' := Finishes(start, trace + Starting("b", req, 2) + Writing("b", 2, ["z"]), s2, "b", req, First(), true, true, true);
  }

  lemma Unshared(db: Db<int>, req: F.Request, id: Id, other: Id)
    requires db.memories.Keys == {id, other} && db.memories[id].record.sources == ["x"] && req.id == other
    ensures forall i :: !Listed(db, req, ["z"], i)
  {
  }

  lemma StorableMoved(other: Record)
    requires Storable(other)
    ensures Storable(other.(sources := ["z"]))
  {
  }

  /** The cascade writes back the record that was listed, sources included. */
  lemma CascadesLate(s: Sys<int>, req: F.Request, c: F.Checkpoint, other: Record)
    requires Doing(s, "a", req, F.Propagating(req, c, ["x"], map[other.id := other], false))
    requires other.status.Active? && Storable(other) && other.id in s.db.memories && s.db.memories[other.id].record.user == other.user
    ensures var s' := Step(s, Act("a", F.Cascade(other.id, 3, "memories", 0)));
            && s'.checkpoints == s.checkpoints && s'.db.tombstones == s.db.tombstones
            && other.id in s'.db.memories && s'.db.memories[other.id].record.sources == other.sources
  {
    hide Step, F.SoftDelete, F.RedactIf, Storable;
    Cascades(s, "a", req, c, ["x"], map[other.id := other], other.id, 3);
    F.DerivedRecord(other, req.redact, 3);
  }

  /**
   A completed forget does not last against a write after the lease lapsed: the late cascade puts the
   forgotten row back to sources that are not forgotten.
   */
  lemma LateCascadeExample(r: Record, other: Record)
    requires Pair(r, other)
    ensures var end := Run(Two(r, other), LateCascade(r, other));
            && Start(Two(r, other)) && NeverDrops(Two(r, other), LateCascade(r, other)) && NeverTakes(Two(r, other), LateCascade(r, other))
            && (r.user, other.id) in end.checkpoints && end.checkpoints[(r.user, other.id)].completed
            && other.id in end.db.memories && "y" in end.db.memories[other.id].record.sources && (r.user, "y") !in end.db.tombstones
  {
    hide Step, AllOnTime, NeverDrops, NeverTakes, Run, So, Storable, Holds;
    var start, first, second := Two(r, other), F.Request(r.user, r.id, false), F.Request(r.user, other.id, false);
    FreshStarts(start);
    var s1 := ForgetsFirst(r, other);
    var s2 := ListsThenMoves(r, other, s1);
    var t2 := Starting("a", first, 1) + Writing("a", 1, ["x"]) + [Act("a", F.List), Env(Runs.Upserted(other.(sources := ["z"]))), Tick(300)];
    var s3 := CompletesMoved(r, other, t2, s2, second);
    var t3, late := t2 + Starting("b", second, 2) + Writing("b", 2, ["z"]) + Finishing("b"), Act("a", F.Cascade(other.id, 3, "memories", 0));
    Late(start, t3, s3);
    CascadesLate(s3, first, First(), other);
    Go(start, t3, s3, late, false, true, true);
    Arrives(start, t3 + [late], Step(s3, late));
    assert t3 + [late] == LateCascade(r, other);
  }

  // ---- Exactly when the promises hold ----

  /** Runs that may hold late writes, and may drop a redaction. */
  ghost predicate Within(s: Sys<int>, events: seq<Event<int>>, late: bool, drops: bool) {
    Start(s) && (late || AllOnTime(s, events)) && (drops || NeverDrops(s, events))
  }

  /** Every completed forget of every such run stays as durable as it promises. */
  ghost predicate DurableOver(late: bool, drops: bool) {
    forall s, events, user, id :: Within(s, events, late, drops) ==> DurableAt(Run(s, events), user, id)
  }

  /** No completed checkpoint of such a run promises a redaction that the row does not show, in status or in content. */
  ghost predicate RedactsOver(a: Aspect, late: bool, drops: bool) {
    forall s, events, user, id :: Within(s, events, late, drops) ==> Promised(a, Run(s, events), user, id)
  }

  predicate Promised(a: Aspect, s: Sys<int>, user: User, id: Id) {
    (user, id) in s.checkpoints && s.checkpoints[(user, id)].completed ==> CarriedOut(a, s, user, id)
  }

  /** A redacted row is blank in every run. */
  lemma StatusBringsContent(s: Sys<int>, user: User, id: Id)
    requires Intent(s) && Promised(Status, s, user, id)
    ensures Promised(Content, s, user, id)
  {
    hide Keyed, CompletedSealed, Prepared;
  }

  /** A record for the examples. */
  function Sample(id: Id, sources: seq<Source>): Record {
    Record(id, "user", None, "content", "fact", sources, [], [], Private, 0, 0, Active, Embedding(Some("p"), Some("m"), Some(1), None), 0, None)
  }

  /** Completed forgets are durable if and only if no attempt writes after its lease lapsed. */
  lemma DurableIff(late: bool, drops: bool)
    ensures DurableOver(late, drops) <==> !late
  {
    hide Run, AllOnTime, NeverDrops, DurableAt;
    if late {
      var r, other := Sample("r", ["x"]), Sample("o", ["x", "y"]);
      LateCascadeExample(r, other);
      var start, events := Two(r, other), LateCascade(r, other);
      assert Within(start, events, late, drops);
      NotMarked(Run(start, events), "user", "o", "y");
    } else {
      forall s, events, user, id | Within(s, events, late, drops)
        ensures DurableAt(Run(s, events), user, id)
      {
        ForgetIsDurable(s, events, user, id);
      }
    }
  }

  lemma NotMarked(s: Sys<int>, user: User, id: Id, source: Source)
    requires (user, id) in s.checkpoints && s.checkpoints[(user, id)].completed
    requires id in s.db.memories && source in s.db.memories[id].record.sources && (user, source) !in s.db.tombstones
    ensures !DurableAt(s, user, id)
  {
  }

  /** Completed answers redact as they promise, in status or in content, if and only if no attempt writes late and none drops a redaction. */
  lemma RedactsIff(a: Aspect, late: bool, drops: bool)
    ensures RedactsOver(a, late, drops) <==> !late && !drops
  {
    hide Run, AllOnTime, NeverDrops, Intent, Inv;
    var r := Sample("r", []);
    if late {
      UndoneRedactionExample(r);
      assert Within(One(r), UndoneRedaction(r), late, drops) && !Promised(a, Run(One(r), UndoneRedaction(r)), r.user, r.id);
    } else if drops {
      DroppedRedactionExample(r);
      assert Within(One(r), DroppedRedaction(r), late, drops) && !Promised(a, Run(One(r), DroppedRedaction(r)), r.user, r.id);
    } else {
      forall s, events, user, id | Within(s, events, late, drops)
        ensures Promised(a, Run(s, events), user, id)
      {
        RedactionIsSound(s, events, user, id);
        StartHolds(s);
        RunIntent(s, events);
        StatusBringsContent(Run(s, events), user, id);
      }
    }
  }
}
