/** Parts of runs by one worker: its steps with the states they reach, for concrete runs. */
module ForgetParts {
  import opened Wrappers
  import opened Memories
  import opened Attempts
  import opened UserLease
  import opened ForgetRedaction
  import opened ForgetSpread
  import F = Forget

  /** The state a run of the start state has reached. */
  ghost predicate Reaches(start: Sys<int>, trace: seq<Event<int>>, s: Sys<int>) {
    Run(start, trace) == s
  }

  lemma Extend(start: Sys<int>, trace: seq<Event<int>>, s: Sys<int>, e: Event<int>)
    requires Reaches(start, trace, s)
    ensures Reaches(start, trace + [e], Step(s, e))
    ensures AllOnTime(start, trace + [e]) <==> AllOnTime(start, trace) && OnTime(s, e)
    ensures NeverDrops(start, trace + [e]) <==> NeverDrops(start, trace) && DropFree(s, e)
    ensures NeverTakes(start, trace + [e]) <==> NeverTakes(start, trace) && TakesNone(s, e)
  {
    hide Step, OnTime, DropFree, TakesNone;
    assert (trace + [e])[..|trace|] == trace;
  }

  // ---- One step of one worker ----

  /** The worker's place. */
  predicate Doing(s: Sys<int>, w: Owner, req: F.Request, phase: F.Phase) {
    w in s.attempts && s.attempts[w] == Attempt(req, phase)
  }

  /** Everything but this worker's place and what is named is as it was. */
  predicate Beside(s: Sys<int>, s': Sys<int>, w: Owner) {
    && s'.clock == s.clock && s'.leases == s.leases && s'.attempts.Keys == s.attempts.Keys
    && forall u :: u in s.attempts && u != w ==> u in s'.attempts && s'.attempts[u] == s.attempts[u]
  }

  /** A claim and the two reads. */
  lemma Reads(s: Sys<int>, w: Owner, req: F.Request)
    requires w !in s.attempts && LeaseAdmits(s, req.user, w)
    requires req.id in s.db.memories && s.db.memories[req.id].record.user == req.user
    ensures Read(s, w, req) == Loaded(s, w, req)
  {
    hide F.Protect, F.SoftDelete, F.Shares, Commit, CommitAdmits, F.Settled, F.ResolvedCheckpoint, F.CompletedFor, F.RedactIf, F.OutcomeFits;
    var existing := F.Stored(F.Sys(s.db, s.checkpoints, F.Idle), req);
    var leases := s.leases[req.user := Claimed(w, s.clock)];
    var claimed := Step(s, Claim(w, req));
    assert claimed == s.(attempts := s.attempts[w := Attempt(req, F.Idle)], leases := leases);
    var begun := Step(claimed, Act(w, F.Begin(req)));
    assert begun == s.(attempts := s.attempts[w := Attempt(req, F.Loading(req, existing))], leases := leases);
  }

  function Read(s: Sys<int>, w: Owner, req: F.Request): Sys<int> {
    Step(Step(Step(s, Claim(w, req)), Act(w, F.Begin(req))), Act(w, F.Load))
  }

  function Loaded(s: Sys<int>, w: Owner, req: F.Request): Sys<int>
    requires req.id in s.db.memories
  {
    s.(attempts := s.attempts[w := Attempt(req, F.Deciding(req, F.Stored(F.Sys(s.db, s.checkpoints, F.Idle), req), s.db.memories[req.id].record))],
       leases := s.leases[req.user := Claimed(w, s.clock)])
  }

  /** A decision to go on. */
  lemma Decides(s: Sys<int>, w: Owner, req: F.Request, existing: Option<F.Checkpoint>, row: Record, now: Stamp)
    requires Doing(s, w, req, F.Deciding(req, existing, row))
    requires existing.Some? ==> !existing.value.completed
    ensures var s' := Step(s, Act(w, F.Decide(now))); var masked := F.Protect(s.db, row);
            && s'.db == s.db && s'.checkpoints == s.checkpoints && Beside(s, s', w)
            && Doing(s', w, req, F.Intending(req, F.Taken(existing, masked, now), F.Next(F.Resumed(existing, masked))))
  {
    hide F.Protect, F.Taken;
    F.MaskedStatus(s.db, row, existing, now);
  }

  lemma Saves(s: Sys<int>, w: Owner, req: F.Request, r: Record, c: F.Checkpoint)
    requires Doing(s, w, req, F.Intending(req, r, c))
    ensures var s' := Step(s, Act(w, F.SaveIntent));
            && s'.db == s.db && s'.checkpoints == s.checkpoints[F.Key(req) := c]
            && Doing(s', w, req, F.Marking(req, r, c, 0)) && Beside(s, s', w)
  {
  }

  lemma Marks(s: Sys<int>, w: Owner, req: F.Request, r: Record, c: F.Checkpoint, done: nat)
    requires Doing(s, w, req, F.Marking(req, r, c, done)) && done < |r.sources|
    ensures var s' := Step(s, Act(w, F.Mark));
            && s'.checkpoints == s.checkpoints && s'.db.memories == s.db.memories
            && s'.db.tombstones == s.db.tombstones[(req.user, r.sources[done]) := Tombstone(req.id, req.redact)]
            && Doing(s', w, req, F.Marking(req, r, c, done + 1)) && Beside(s, s', w)
  {
  }

  lemma Resolves(s: Sys<int>, w: Owner, req: F.Request, r: Record, c: F.Checkpoint, now: Stamp)
    requires Doing(s, w, req, F.Marking(req, r, c, |r.sources|))
    ensures var s' := Step(s, Act(w, F.Resolve(now)));
            var c' := F.ResolvedCheckpoint(c, r, req.redact, now);
            && s'.db == s.db && s'.checkpoints == s.checkpoints[F.Key(req) := c']
            && Doing(s', w, req, F.Updating(req, F.RedactIf(F.SoftDelete(r, now), req.redact, now), c')) && Beside(s, s', w)
  {
  }

  /** The row's record after the update; the row keeps its creation time. */
  lemma Updates(s: Sys<int>, w: Owner, req: F.Request, r: Record, c: F.Checkpoint)
    requires Doing(s, w, req, F.Updating(req, r, c)) && F.Inactive(r) && Storable(r) && r.id == req.id && r.user == req.user
    requires r.id in s.db.memories && s.db.memories[r.id].record.user == r.user
    ensures var s' := Step(s, Act(w, F.Update("memories", 0)));
            && s'.checkpoints == s.checkpoints && s'.db.tombstones == s.db.tombstones
            && s'.db.memories == s.db.memories[r.id := Row(r, s.db.memories[r.id].createdAt)]
            && Doing(s', w, req, F.Updated(req, c)) && Beside(s, s', w)
  {
  }

  /** Another row of the user's that carries one of the sources. */
  predicate Listed(db: Db<int>, req: F.Request, sources: seq<Source>, id: Id) {
    id in db.memories && id != req.id && db.memories[id].record.user == req.user && F.Shares(sources, db.memories[id].record)
  }

  lemma Lists(s: Sys<int>, w: Owner, req: F.Request, c: F.Checkpoint)
    requires Doing(s, w, req, F.Updated(req, c)) && req.id in s.db.memories
    ensures var s' := Step(s, Act(w, F.List));
            && s'.db == s.db && s'.checkpoints == s.checkpoints && Beside(s, s', w)
            && Doing(s', w, req, s'.attempts[w].phase) && s'.attempts[w].phase.Propagating?
            && var p := s'.attempts[w].phase;
               && p.req == req && p.c == c && !p.failed && p.sources == s.db.memories[req.id].record.sources
               && (forall id :: id in p.listed <==> Listed(s.db, req, p.sources, id))
               && forall id :: id in p.listed ==> p.listed[id] == s.db.memories[id].record
  {
  }

  lemma WrittenStorable(r: Record, redact: bool, now: Stamp)
    requires Storable(r)
    ensures var d := F.RedactIf(F.SoftDelete(r, now), redact, now); Storable(d) && F.Inactive(d) && d.id == r.id && d.user == r.user
  {
  }

  /** A cascade to a listed row, whatever has become of the row. */
  lemma Cascades(s: Sys<int>, w: Owner, req: F.Request, c: F.Checkpoint, sources: seq<Source>, listed: map<Id, Record>, id: Id, now: Stamp)
    requires Doing(s, w, req, F.Propagating(req, c, sources, listed, false)) && id in listed && listed[id].id == id && Storable(listed[id])
    requires id in s.db.memories && s.db.memories[id].record.user == listed[id].user
    ensures var s' := Step(s, Act(w, F.Cascade(id, now, "memories", 0))); var derived := F.RedactIf(F.SoftDelete(listed[id], now), req.redact, now);
            && s'.checkpoints == s.checkpoints && s'.db.tombstones == s.db.tombstones
            && s'.db.memories == s.db.memories[id := Row(derived, s.db.memories[id].createdAt)]
            && Doing(s', w, req, F.Propagating(req, c, sources, listed - {id}, false)) && Beside(s, s', w)
  {
    WrittenStorable(listed[id], req.redact, now);
    hide F.SoftDelete, F.RedactIf, Storable;
  }

  const ACKNOWLEDGED: seq<F.Receipt> := [F.Receipt("postgres", "forget_sources", true)]

  lemma AcknowledgedAll(c: F.Checkpoint)
    requires c.receipts == []
    ensures F.Settled(c, Success(ACKNOWLEDGED)) == c.(receipts := ACKNOWLEDGED, completed := true, lastError := None)
  {
    assert F.MergeReceipts([], ACKNOWLEDGED) == F.MergeReceipts(F.MergeReceipt([], ACKNOWLEDGED[0]), []) == ACKNOWLEDGED;
  }

  /** The answer of a worker whose stores all acknowledged and that has nothing left to cascade to. */
  lemma Settles(s: Sys<int>, w: Owner, req: F.Request, c: F.Checkpoint, sources: seq<Source>)
    requires Doing(s, w, req, F.Propagating(req, c, sources, map[], false)) && c.receipts == []
    ensures var s' := Step(s, Act(w, F.Settle(Success(ACKNOWLEDGED)))); var c' := c.(receipts := ACKNOWLEDGED, completed := true, lastError := None);
            && s'.db == s.db && s'.checkpoints == s.checkpoints[F.Key(req) := c']
            && Doing(s', w, req, F.Answered(req, c')) && Beside(s, s', w)
  {
    AcknowledgedAll(c);
    hide F.Settled, F.AllAcknowledged;
  }

  // ---- Parts of a run ----

  function Starting(w: Owner, req: F.Request, now: Stamp): seq<Event<int>> {
    [Claim(w, req), Act(w, F.Begin(req)), Act(w, F.Load), Act(w, F.Decide(now))]
  }

  function Writing(w: Owner, now: Stamp, sources: seq<Source>): seq<Event<int>> {
    [Act(w, F.SaveIntent)] + Marking(w, sources) + [Act(w, F.Resolve(now)), Act(w, F.Update("memories", 0))]
  }

  function Finishing(w: Owner): seq<Event<int>> {
    [Act(w, F.List), Act(w, F.Settle(Success(ACKNOWLEDGED)))]
  }

  /** The run so far, and whether it was on time, dropped nothing and took nothing over. */
  ghost predicate So(start: Sys<int>, trace: seq<Event<int>>, s: Sys<int>, onTime: bool, noDrop: bool, noTake: bool) {
    Reaches(start, trace, s) && (onTime ==> AllOnTime(start, trace)) && (noDrop ==> NeverDrops(start, trace)) && (noTake ==> NeverTakes(start, trace))
  }

  lemma Go(start: Sys<int>, trace: seq<Event<int>>, s: Sys<int>, e: Event<int>, onTime: bool, noDrop: bool, noTake: bool)
    requires So(start, trace, s, onTime, noDrop, noTake)
    requires onTime ==> OnTime(s, e)
    requires noDrop ==> DropFree(s, e)
    requires noTake ==> TakesNone(s, e)
    ensures So(start, trace + [e], Step(s, e), onTime, noDrop, noTake)
  {
    hide Reaches, AllOnTime, NeverDrops, NeverTakes, Step, OnTime, DropFree, TakesNone;
    Extend(start, trace, s, e);
  }

  /** A step after the decision, with what it leaves of the lease. */
  lemma GoOn(start: Sys<int>, trace: seq<Event<int>>, s: Sys<int>, w: Owner, e: F.Event<int>, req: F.Request, onTime: bool, noDrop: bool, noTake: bool)
    requires So(start, trace, s, onTime, noDrop, noTake) && !e.Decide?
    requires w in s.attempts && s.attempts[w].req == req && (onTime ==> Holds(s, w))
    ensures So(start, trace + [Act(w, e)], Step(s, Act(w, e)), onTime, noDrop, noTake)
    ensures onTime && Beside(s, Step(s, Act(w, e)), w) && w in Step(s, Act(w, e)).attempts && Step(s, Act(w, e)).attempts[w].req == req ==>
              Holds(Step(s, Act(w, e)), w)
  {
    hide So, Step;
    Go(start, trace, s, Act(w, e), onTime, noDrop, noTake);
  }

  /** A worker starts on a memory whose forget is not completed yet. */
  lemma Starts(start: Sys<int>, trace: seq<Event<int>>, s: Sys<int>, w: Owner, req: F.Request, now: Stamp, onTime: bool, noDrop: bool, noTake: bool)
    returns (s': Sys<int>)
    requires So(start, trace, s, onTime, noDrop, noTake)
    requires w !in s.attempts && LeaseAdmits(s, req.user, w)
    requires req.id in s.db.memories && s.db.memories[req.id].record.user == req.user
    requires F.Key(req) in s.checkpoints ==> !s.checkpoints[F.Key(req)].completed
    requires var existing := F.Stored(F.Sys(s.db, s.checkpoints, F.Idle), req);
             (noDrop ==> !Drops(Status, s.db, req, existing, s.db.memories[req.id].record)) && (noTake ==> !TakesOver(req, existing))
    ensures So(start, trace + Starting(w, req, now), s', onTime, noDrop, noTake)
    ensures var existing := F.Stored(F.Sys(s.db, s.checkpoints, F.Idle), req); var masked := F.Protect(s.db, s.db.memories[req.id].record);
            && s'.db == s.db && s'.checkpoints == s.checkpoints && s'.clock == s.clock
            && s'.leases == s.leases[req.user := Claimed(w, s.clock)]
            && Doing(s', w, req, F.Intending(req, F.Taken(existing, masked, now), F.Next(F.Resumed(existing, masked))))
            && s'.attempts.Keys == s.attempts.Keys + {w}
            && forall u :: u in s.attempts ==> s'.attempts[u] == s.attempts[u]
  {
    hide So, Step, F.Protect, F.Taken, F.Resumed, F.Next, Drops, TakesOver, LeaseAdmits;
    var s1 := Step(s, Claim(w, req));
    Go(start, trace, s, Claim(w, req), onTime, noDrop, noTake);
    var s2 := Step(s1, Act(w, F.Begin(req)));
    Go(start, trace + [Claim(w, req)], s1, Act(w, F.Begin(req)), onTime, noDrop, noTake);
    var s3 := Step(s2, Act(w, F.Load));
    Go(start, trace + [Claim(w, req)] + [Act(w, F.Begin(req))], s2, Act(w, F.Load), onTime, noDrop, noTake);
    Reads(s, w, req);
    assert s3 == Loaded(s, w, req);
    Go(start, trace + [Claim(w, req)] + [Act(w, F.Begin(req))] + [Act(w, F.Load)], s3, Act(w, F.Decide(now)), onTime, noDrop, noTake);
    Decides(s3, w, req, s3.attempts[w].phase.existing, s.db.memories[req.id].record, now);
    s' := Step(s3, Act(w, F.Decide(now)));
    assert trace + [Claim(w, req)] + [Act(w, F.Begin(req))] + [Act(w, F.Load)] + [Act(w, F.Decide(now))] == trace + Starting(w, req, now);
  }

  function Marking(w: Owner, sources: seq<Source>): seq<Event<int>> {
    if sources == [] then [] else [Act(w, F.Mark)]
  }

  function MarkedBy(tombstones: map<(User, Source), Tombstone>, req: F.Request, sources: seq<Source>): map<(User, Source), Tombstone> {
    if sources == [] then tombstones else tombstones[(req.user, sources[0]) := Tombstone(req.id, req.redact)]
  }

  /** The worker saves its intent and marks the record's source, if it has one. */
  lemma Intends(start: Sys<int>, trace: seq<Event<int>>, s: Sys<int>, w: Owner, req: F.Request, r: Record, c: F.Checkpoint, onTime: bool, noDrop: bool, noTake: bool)
    returns (s': Sys<int>)
    requires So(start, trace, s, onTime, noDrop, noTake) && (onTime ==> Holds(s, w))
    requires Doing(s, w, req, F.Intending(req, r, c)) && |r.sources| <= 1
    ensures So(start, trace + [Act(w, F.SaveIntent)] + Marking(w, r.sources), s', onTime, noDrop, noTake) && (onTime ==> Holds(s', w))
    ensures && s'.checkpoints == s.checkpoints[F.Key(req) := c] && s'.db.memories == s.db.memories
            && s'.db.tombstones == MarkedBy(s.db.tombstones, req, r.sources)
            && Doing(s', w, req, F.Marking(req, r, c, |r.sources|)) && Beside(s, s', w)
  {
    hide So, Step, Holds;
    var t1, s1 := trace + [Act(w, F.SaveIntent)], Step(s, Act(w, F.SaveIntent));
    Saves(s, w, req, r, c);
    GoOn(start, trace, s, w, F.SaveIntent, req, onTime, noDrop, noTake);
    if r.sources == [] {
      s' := s1;
      assert t1 + Marking(w, r.sources) == t1;
    } else {
      s' := Step(s1, Act(w, F.Mark));
      Marks(s1, w, req, r, c, 0);
      GoOn(start, t1, s1, w, F.Mark, req, onTime, noDrop, noTake);
    }
  }

  /** The worker saves its intent, marks the source and writes the row. */
  lemma WritesRow(start: Sys<int>, trace: seq<Event<int>>, s: Sys<int>, w: Owner, req: F.Request, r: Record, c: F.Checkpoint, now: Stamp, onTime: bool, noDrop: bool, noTake: bool)
    returns (s': Sys<int>)
    requires So(start, trace, s, onTime, noDrop, noTake) && (onTime ==> Holds(s, w))
    requires Doing(s, w, req, F.Intending(req, r, c)) && |r.sources| <= 1 && r.id == req.id && r.user == req.user && Storable(r)
    requires r.id in s.db.memories && s.db.memories[r.id].record.user == r.user
    ensures So(start, trace + Writing(w, now, r.sources), s', onTime, noDrop, noTake) && (onTime ==> Holds(s', w))
    ensures var written := F.RedactIf(F.SoftDelete(r, now), req.redact, now); var c' := F.ResolvedCheckpoint(c, r, req.redact, now);
            && s'.checkpoints == s.checkpoints[F.Key(req) := c']
            && s'.db.memories == s.db.memories[r.id := Row(written, s.db.memories[r.id].createdAt)]
            && s'.db.tombstones == MarkedBy(s.db.tombstones, req, r.sources)
            && Doing(s', w, req, F.Updated(req, c')) && Beside(s, s', w)
  {
    hide So, Step, Storable, Holds, F.SoftDelete, F.RedactIf, F.ResolvedCheckpoint, F.Inactive, MarkedBy, Marking;
    var s2 := Intends(start, trace, s, w, req, r, c, onTime, noDrop, noTake);
    var t2 := trace + [Act(w, F.SaveIntent)] + Marking(w, r.sources);
    var s3 := Step(s2, Act(w, F.Resolve(now)));
    Resolves(s2, w, req, r, c, now);
    GoOn(start, t2, s2, w, F.Resolve(now), req, onTime, noDrop, noTake);
    var written := F.RedactIf(F.SoftDelete(r, now), req.redact, now);
    WrittenStorable(r, req.redact, now);
    Updates(s3, w, req, written, F.ResolvedCheckpoint(c, r, req.redact, now));
    GoOn(start, t2 + [Act(w, F.Resolve(now))], s3, w, F.Update("memories", 0), req, onTime, noDrop, noTake);
    s' := Step(s3, Act(w, F.Update("memories", 0)));
    assert t2 + [Act(w, F.Resolve(now))] + [Act(w, F.Update("memories", 0))] == trace + Writing(w, now, r.sources);
  }

  /** With no row left to cascade to, the worker completes the forget. */
  lemma Finishes(start: Sys<int>, trace: seq<Event<int>>, s: Sys<int>, w: Owner, req: F.Request, c: F.Checkpoint, onTime: bool, noDrop: bool, noTake: bool)
    returns (s': Sys<int>)
    requires So(start, trace, s, onTime, noDrop, noTake) && (onTime ==> Holds(s, w))
    requires Doing(s, w, req, F.Updated(req, c)) && c.receipts == [] && req.id in s.db.memories
    requires forall id :: !Listed(s.db, req, s.db.memories[req.id].record.sources, id)
    ensures So(start, trace + Finishing(w), s', onTime, noDrop, noTake)
    ensures var c' := c.(receipts := ACKNOWLEDGED, completed := true, lastError := None);
            && s'.db == s.db && s'.checkpoints == s.checkpoints[F.Key(req) := c']
            && Doing(s', w, req, F.Answered(req, c')) && Beside(s, s', w)
  {
    hide So, Step, Listed, Holds;
    var s1 := Step(s, Act(w, F.List));
    Lists(s, w, req, c);
    GoOn(start, trace, s, w, F.List, req, onTime, noDrop, noTake);
    assert s1.attempts[w].phase.listed == map[];
    Settles(s1, w, req, c, s1.attempts[w].phase.sources);
    GoOn(start, trace + [Act(w, F.List)], s1, w, F.Settle(Success(ACKNOWLEDGED)), req, onTime, noDrop, noTake);
    s' := Step(s1, Act(w, F.Settle(Success(ACKNOWLEDGED))));
    assert trace + [Act(w, F.List)] + [Act(w, F.Settle(Success(ACKNOWLEDGED)))] == trace + Finishing(w);
  }
}
