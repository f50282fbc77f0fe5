/**
 forget_memory and forget_claimed as the worker runs them: ordered durable writes over tables updated in place. The
 budget is the number of durable writes the worker lives to make, so every budget is a crash point.
 Whatever the budget, the tables end where the step relation of the workflow takes them.
 */
module ForgetWorker {
  import opened Wrappers
  import opened Memories
  import opened Forget
  import A = Attempts
  import L = UserLease
  import R = ForgetReceipts
  import W = ForgetEffects

  /** An event of the worker's own, about its request. */
  predicate Mine<E>(req: Request, e: Event<E>) {
    !e.Env? && (e.Begin? ==> e.req == req)
  }

  /** The worker's own events lead from one state to the other. */
  ghost predicate Reaches<E>(req: Request, start: Sys<E>, trace: seq<Event<E>>, s: Sys<E>) {
    (forall e :: e in trace ==> Mine(req, e)) && Run(start, trace) == s
  }

  lemma Extend<E>(req: Request, start: Sys<E>, trace: seq<Event<E>>, s: Sys<E>, e: Event<E>)
    requires Reaches(req, start, trace, s) && Mine(req, e)
    ensures Reaches(req, start, trace + [e], Step(s, e))
  {
    assert (trace + [e])[..|trace|] == trace;
  }

  /** The receipt list with the entry at `k` replaced, or the receipt appended when there is none. */
  lemma {:induction false} MergedAt(receipts: seq<Receipt>, receipt: Receipt, k: nat)
    requires k <= |receipts|
    requires forall i :: 0 <= i < k ==> !(receipts[i].backend == receipt.backend && receipts[i].operation == receipt.operation)
    requires k < |receipts| ==> receipts[k].backend == receipt.backend && receipts[k].operation == receipt.operation
    ensures MergeReceipt(receipts, receipt) == if k < |receipts| then receipts[k := receipt] else receipts + [receipt]
  {
    if k > 0 {
      var rest := receipts[1..];
      MergedAt(rest, receipt, k - 1);
      assert receipts == [receipts[0]] + rest;
      assert k < |receipts| ==> [receipts[0]] + rest[k - 1 := receipt] == receipts[k := receipt];
      assert [receipts[0]] + (rest + [receipt]) == receipts + [receipt];
    }
  }

  method Merge(previous: seq<Receipt>, incoming: seq<Receipt>) returns (receipts: seq<Receipt>)
    ensures receipts == MergeReceipts(previous, incoming)
  {
    receipts := previous;
    var i := 0;
    while i < |incoming|
      invariant 0 <= i <= |incoming|
      invariant MergeReceipts(receipts, incoming[i..]) == MergeReceipts(previous, incoming)
    {
      var k := 0;
      while k < |receipts| && !(receipts[k].backend == incoming[i].backend && receipts[k].operation == incoming[i].operation)
        invariant 0 <= k <= |receipts|
        invariant forall j :: 0 <= j < k ==> !(receipts[j].backend == incoming[i].backend && receipts[j].operation == incoming[i].operation)
      {
        k := k + 1;
      }
      MergedAt(receipts, incoming[i], k);
      receipts := if k < |receipts| then receipts[k := incoming[i]] else receipts + [incoming[i]];
      i := i + 1;
    }
  }

  method Judge(c0: Checkpoint, outcome: Result<seq<Receipt>, string>) returns (c: Checkpoint)
    ensures c == Settled(c0, outcome)
  {
    c := c0;
    match outcome {
      case Success(incoming) =>
        var receipts := Merge(c.receipts, incoming);
        c := c.(receipts := receipts);
        if receipts != [] && forall i :: 0 <= i < |receipts| ==> receipts[i].acknowledged {
          c := c.(completed := true, lastError := None);
        } else {
          c := c.(lastError := Some("one or more stores have not acknowledged forget propagation"));
        }
      case Failure(error) =>
        c := c.(lastError := Some(error));
    }
  }

  // ---- What an attempt that completes has done ----

  /** Every source has this request's tombstone, and every other tombstone is as it was. */
  ghost predicate Marks(before: map<(User, Source), Tombstone>, after: map<(User, Source), Tombstone>, req: Request, sources: seq<Source>) {
    && (forall i :: 0 <= i < |sources| ==> (req.user, sources[i]) in after && after[(req.user, sources[i])] == Tombstone(req.id, req.redact))
    && (forall key :: key in before && !(key.0 == req.user && key.1 in sources) ==> key in after && after[key] == before[key])
    && (forall key :: key in after && !(key.0 == req.user && key.1 in sources) ==> key in before)
  }

  lemma MarksNone(tombstones: map<(User, Source), Tombstone>, req: Request, sources: seq<Source>)
    ensures Marks(tombstones, tombstones, req, sources[..0])
  {
  }

  lemma MarksOne(before: map<(User, Source), Tombstone>, after: map<(User, Source), Tombstone>, req: Request, sources: seq<Source>, i: nat)
    requires i < |sources| && Marks(before, after, req, sources[..i])
    ensures Marks(before, after[(req.user, sources[i]) := Tombstone(req.id, req.redact)], req, sources[..i + 1])
  {
    assert sources[..i + 1] == sources[..i] + [sources[i]];
  }

  /** The row is as planned from the one before. */
  ghost predicate Wrote<E>(before: Db<E>, after: Db<E>, id: Id, masked: bool, redact: bool) {
    id in before.memories && id in after.memories && W.Planned(before.memories[id].record, masked, redact, after.memories[id].record)
  }

  ghost predicate Kept<E>(before: Db<E>, after: Db<E>, id: Id) {
    id in before.memories && id in after.memories && after.memories[id] == before.memories[id]
  }

  /** The listed rows, but for the rest, are as planned from how they were listed, and everything else is as it was. */
  ghost predicate Cascaded<E>(before: Db<E>, after: Db<E>, listed: map<Id, Record>, rest: set<Id>, redact: bool) {
    && after.tombstones == before.tombstones && after.memories.Keys == before.memories.Keys
    && (forall id :: id in listed && id !in rest ==> id in after.memories && W.Planned(listed[id], false, redact, after.memories[id].record))
    && (forall id :: id in before.memories && (id !in listed || id in rest) ==> Kept(before, after, id))
  }

  /** Each listed row under its own id. */
  ghost predicate Rows<E>(db: Db<E>, listed: map<Id, Record>) {
    forall id :: id in listed ==> id in db.memories && listed[id].id == id
  }

  lemma RowsId<E>(db: Db<E>, listed: map<Id, Record>, id: Id)
    requires Rows(db, listed) && id in listed
    ensures id in db.memories && listed[id].id == id
  {
  }

  lemma CascadedMore<E>(before: Db<E>, mid: Db<E>, after: Db<E>, all: map<Id, Record>, rest: set<Id>, id: Id, redact: bool)
    requires id in all && id in rest && Cascaded(before, mid, all, rest, redact) && after.tombstones == mid.tombstones
    requires id in after.memories && W.Planned(all[id], false, redact, after.memories[id].record)
    requires forall o :: o in mid.memories && o != id ==> Kept(mid, after, o)
    requires after.memories.Keys <= mid.memories.Keys + {id} && id in before.memories
    ensures Cascaded(before, after, all, rest - {id}, redact)
  {
    hide W.Planned;
    assert after.memories.Keys == mid.memories.Keys;
  }

  lemma CascadedNone<E>(db: Db<E>, all: map<Id, Record>, redact: bool)
    ensures Cascaded(db, db, all, all.Keys, redact)
  {
  }

  /** The other rows of the user with a source in common are as planned, and everything else is as it was. */
  ghost predicate Spreads<E>(before: Db<E>, after: Db<E>, req: Request) {
    && req.id in before.memories && after.memories.Keys == before.memories.Keys && after.tombstones == before.tombstones
    && Kept(before, after, req.id)
    && forall id :: id in before.memories && id != req.id ==>
         if before.memories[id].record.user == req.user && W.Common(before.memories[req.id].record.sources, before.memories[id].record)
         then Wrote(before, after, id, false, req.redact) else Kept(before, after, id)
  }

  lemma CascadeSpreads<E>(before: Db<E>, after: Db<E>, req: Request, listed: map<Id, Record>)
    requires req.id in before.memories && Cascaded(before, after, listed, {}, req.redact)
    requires listed == map id | id in before.memories && id != req.id && before.memories[id].record.user == req.user
                               && Shares(before.memories[req.id].record.sources, before.memories[id].record) :: before.memories[id].record
    ensures Spreads(before, after, req)
  {
    forall id | id in before.memories && id != req.id
      ensures if before.memories[id].record.user == req.user && W.Common(before.memories[req.id].record.sources, before.memories[id].record)
              then Wrote(before, after, id, false, req.redact) else Kept(before, after, id)
    {
      W.SharesMeans(before.memories[req.id].record.sources, before.memories[id].record);
    }
    hide Shares, W.Common, W.Planned;
  }

  /**
   The row is redacted or soft-deleted, and so is every other row of the user with a source in common; each
   source has its tombstone; and everything else is as it was.
   */
  ghost predicate Forgets<E>(before: Db<E>, after: Db<E>, req: Request) {
    && req.id in before.memories && after.memories.Keys == before.memories.Keys
    && var r := before.memories[req.id].record;
       && Wrote(before, after, req.id, W.Masked(before, r), req.redact)
       && Marks(before.tombstones, after.tombstones, req, r.sources)
       && forall id :: id in before.memories && id != req.id ==>
            if before.memories[id].record.user == req.user && W.Common(r.sources, before.memories[id].record)
            then Wrote(before, after, id, false, req.redact) else Kept(before, after, id)
  }

  /** The row is this record, and the cascade has gone out from it. */
  ghost predicate Rewrites<E>(before: Db<E>, after: Db<E>, req: Request, written: Record) {
    && req.id in before.memories && after.memories.Keys == before.memories.Keys && after.tombstones == before.tombstones
    && after.memories[req.id].record == written
    && forall id :: id in before.memories && id != req.id ==>
         if before.memories[id].record.user == req.user && W.Common(written.sources, before.memories[id].record)
         then Wrote(before, after, id, false, req.redact) else Kept(before, after, id)
  }

  lemma UpdatedSpreads<E>(before: Db<E>, updated: Db<E>, after: Db<E>, req: Request, written: Record)
    requires req.id in before.memories && updated.tombstones == before.tombstones && updated.memories.Keys == before.memories.Keys
    requires updated.memories[req.id].record == written
    requires forall id :: id in before.memories && id != req.id ==> Kept(before, updated, id)
    requires Spreads(updated, after, req)
    ensures Rewrites(before, after, req, written)
  {
    hide W.Planned, W.Common;
    assert Kept(updated, after, req.id);
    forall id | id in before.memories && id != req.id
      ensures if before.memories[id].record.user == req.user && W.Common(written.sources, before.memories[id].record)
              then Wrote(before, after, id, false, req.redact) else Kept(before, after, id)
    {
      assert Kept(before, updated, id);
    }
  }

  /** Tombstones, then the row and the cascade. */
  lemma StepsForget<E>(before: Db<E>, marked: Db<E>, after: Db<E>, req: Request, taken: Record, now: Stamp)
    requires req.id in before.memories && marked.memories == before.memories
    requires Marks(before.tombstones, marked.tombstones, req, taken.sources)
    requires W.Pending(before.memories[req.id].record, W.Masked(before, before.memories[req.id].record), taken)
    requires Rewrites(marked, after, req, RedactIf(SoftDelete(taken, now), req.redact, now))
    ensures Forgets(before, after, req)
  {
    var r, written := before.memories[req.id].record, RedactIf(SoftDelete(taken, now), req.redact, now);
    hide Marks, W.Masked, W.Common, RedactIf, SoftDelete;
    W.ResolvedPlanned(r, W.Masked(before, r), taken, req.redact, now);
    PendingSources(r, W.Masked(before, r), taken);
    PlannedSources(r, W.Masked(before, r), req.redact, written);
    hide W.Planned, W.Pending;
    forall id | id in before.memories && id != req.id
      ensures if before.memories[id].record.user == req.user && W.Common(r.sources, before.memories[id].record)
              then Wrote(before, after, id, false, req.redact) else Kept(before, after, id)
    {
      assert marked.memories[id] == before.memories[id];
    }
  }

  lemma PlannedSources(r: Record, masked: bool, redact: bool, written: Record)
    requires W.Planned(r, masked, redact, written)
    ensures written.sources == r.sources
  {
  }

  lemma PendingSources(r: Record, masked: bool, taken: Record)
    requires W.Pending(r, masked, taken)
    ensures taken.sources == r.sources
  {
  }

  lemma KeptKeyed<E>(before: Db<E>, after: Db<E>, id: Id)
    requires Keyed(before) && id in after.memories && after.memories[id].record.id == id && after.memories.Keys == before.memories.Keys + {id}
    requires forall o :: o in before.memories && o != id ==> Kept(before, after, o)
    ensures Keyed(after)
  {
  }

  /** The stored checkpoint is completed and has what the request asks for. */
  predicate AnsweredBefore<E>(db: Db<E>, checkpoints: map<(User, Id), Checkpoint>, req: Request) {
    && Key(req) in checkpoints && checkpoints[Key(req)].completed
    && (!req.redact || checkpoints[Key(req)].redaction.Some? || (req.id in db.memories && db.memories[req.id].record.status.Redacted?))
  }

  /** A refused cascade row never lets the forget complete. */
  lemma FailedNeverCompletes(c0: Checkpoint, propagation: Result<seq<Receipt>, string>)
    requires !c0.completed
    ensures !Settled(c0, if propagation.Failure? then propagation else Success(Answers(propagation, true))).completed
  {
    if propagation.Success? {
      MergedTail(c0.receipts, Answers(propagation, true));
    }
    hide MergeReceipts, AllAcknowledged;
  }

  // ---- What lets an attempt go through ----

  predicate Writable<E>(db: Db<E>, id: Id, r: Record) {
    id in db.memories && db.memories[id].record.user == r.user && r.id == id && Storable(r)
  }

  ghost predicate AllWritable<E>(db: Db<E>, rows: map<Id, Record>) {
    forall id :: id in rows ==> Writable(db, id, rows[id])
  }

  predicate AllStorable<E>(db: Db<E>) {
    forall id :: id in db.memories ==> Storable(db.memories[id].record)
  }

  /** The stores' receipts, merged into those of earlier attempts, acknowledge everything. */
  predicate Acknowledging(receipts: seq<Receipt>, propagation: Result<seq<Receipt>, string>) {
    && propagation.Success?
    && AllAcknowledged(MergeReceipts(receipts, propagation.value + [Receipt("postgres", "forget_sources", true)]))
  }

  /** Rows keyed by their ids and fit to be written, as every write leaves them. */
  ghost predicate Tidy<E>(db: Db<E>) {
    Keyed(db) && AllStorable(db)
  }

  lemma DerivedAdmitted<E>(db: Db<E>, logical: string, id: Id, r: Record, redact: bool, now: Stamp)
    requires Writable(db, id, r)
    ensures Writable(db, id, RedactIf(SoftDelete(r, now), redact, now))
    ensures CommitAdmits(db, logical, RedactIf(SoftDelete(r, now), redact, now))
  {
  }

  /** Writing a fit row over its own id changes neither the set of rows nor their fitness. */
  lemma CommitTidy<E>(db: Db<E>, logical: string, r: Record, evidence: E)
    requires Tidy(db) && Writable(db, r.id, r) && CommitAdmits(db, logical, r)
    ensures Tidy(Commit(db, logical, r, evidence)) && Commit(db, logical, r, evidence).memories.Keys == db.memories.Keys
  {
  }

  lemma ProtectedWritable<E>(db: Db<E>, id: Id, now: Stamp)
    requires Tidy(db) && id in db.memories
    ensures Writable(db, id, Protect(db, db.memories[id].record))
    ensures Writable(db, id, SoftDelete(Protect(db, db.memories[id].record), now))
    ensures SoftDelete(Protect(db, db.memories[id].record), now).sources == db.memories[id].record.sources
    ensures Protect(db, db.memories[id].record).sources == db.memories[id].record.sources
  {
  }

  /** A commit of one row leaves the others writable. */
  lemma StillWritable<E>(db: Db<E>, logical: string, written: Record, evidence: E, id: Id, r: Record)
    requires Writable(db, id, r) && id != written.id
    ensures Writable(Commit(db, logical, written, evidence), id, r)
  {
  }

  lemma SameWritable<E>(db: Db<E>, db': Db<E>, id: Id, r: Record)
    requires db'.memories == db.memories
    ensures Writable(db', id, r) <==> Writable(db, id, r)
    ensures Tidy(db') <==> Tidy(db)
  {
  }

  lemma WritableId<E>(db: Db<E>, id: Id, r: Record)
    requires Writable(db, id, r)
    ensures r.id == id
  {
  }

  lemma CompletesWhenAcknowledged(c: Checkpoint, failed: bool, propagation: Result<seq<Receipt>, string>)
    ensures Acknowledging(c.receipts, propagation) ==> propagation.Success?
    ensures !failed && Acknowledging(c.receipts, propagation) ==>
              Settled(c, Success(propagation.value + [Receipt("postgres", "forget_sources", !failed)])).completed
  {
  }

  /** What the stores answered, the canonical one last. */
  function Answers(propagation: Result<seq<Receipt>, string>, failed: bool): seq<Receipt> {
    if propagation.Success? then propagation.value + [Receipt("postgres", "forget_sources", !failed)] else []
  }

  /**
   The checkpoint has the stores' receipts, each store's last, beside the earlier ones of stores that did not
   answer, and is completed exactly when all of them acknowledge; after an error it has the earlier ones.
   */
  ghost predicate Reports(earlier: seq<Receipt>, propagation: Result<seq<Receipt>, string>, failed: bool, c: Checkpoint) {
    R.OncePerStore(earlier) ==>
      && (forall r :: r in c.receipts <==> R.Current(earlier, Answers(propagation, failed), r))
      && (c.completed <==> propagation.Success? && forall r :: R.Current(earlier, Answers(propagation, failed), r) ==> r.acknowledged)
  }

  /** The receipts of earlier attempts. */
  function Earlier(checkpoints: map<(User, Id), Checkpoint>, req: Request): seq<Receipt> {
    if Key(req) in checkpoints then checkpoints[Key(req)].receipts else []
  }

  /** The answer is the stored completed checkpoint, or reports what the stores answered now. */
  ghost predicate Answerable(checkpoints: map<(User, Id), Checkpoint>, req: Request, propagation: Result<seq<Receipt>, string>, c: Checkpoint) {
    || (Key(req) in checkpoints && checkpoints[Key(req)] == c && c.completed)
    || exists failed :: Reports(Earlier(checkpoints, req), propagation, failed, c)
  }

  /** The two reads. */
  lemma Loads<E>(req: Request, db: Db<E>, checkpoints: map<(User, Id), Checkpoint>)
    ensures var start := Sys(db, checkpoints, Idle);
            Reaches(req, start, [Begin(req), Load],
                    start.(phase := if req.id in db.memories && db.memories[req.id].record.user == req.user
                                    then Deciding(req, Stored(start, req), db.memories[req.id].record) else Stopped))
  {
    var start := Sys(db, checkpoints, Idle);
    Extend(req, start, [], start, Begin(req));
    var begun: seq<Event<E>> := [Begin(req)];
    Extend(req, start, begun, Step(start, Begin(req)), Load);
    assert begun + [Load] == [Begin(req), Load];
  }

  /** The decision over what was read. */
  lemma DecidesStep<E>(s: Sys<E>, now: Stamp)
    requires s.phase.Deciding?
    ensures var masked := Protect(s.db, s.phase.r); var c, r := Resumed(s.phase.existing, masked), Taken(s.phase.existing, masked, now);
            Step(s, Decide(now)) ==
            s.(phase := if CompletedFor(c, s.phase.req, r) then Answered(s.phase.req, c) else Intending(s.phase.req, r, Next(c)))
  {
    hide Protect, Taken;
  }

  lemma StoredAnswers(checkpoints: map<(User, Id), Checkpoint>, req: Request, propagation: Result<seq<Receipt>, string>)
    requires Key(req) in checkpoints && checkpoints[Key(req)].completed
    ensures Answerable(checkpoints, req, propagation, checkpoints[Key(req)])
  {
  }

  lemma AnswersNow(checkpoints: map<(User, Id), Checkpoint>, req: Request, receipts: seq<Receipt>, propagation: Result<seq<Receipt>, string>, c: Checkpoint)
    requires (exists failed :: Reports(receipts, propagation, failed, c)) && receipts == Earlier(checkpoints, req)
    ensures Answerable(checkpoints, req, propagation, c)
  {
    hide Reports;
  }

  lemma SettledReports(c0: Checkpoint, failed: bool, propagation: Result<seq<Receipt>, string>)
    requires !c0.completed
    ensures Reports(c0.receipts, propagation, failed,
                    Settled(c0, if propagation.Failure? then propagation else Success(Answers(propagation, failed))))
  {
    hide Settled, R.OncePerStore, R.SamePlaces;
    if R.OncePerStore(c0.receipts) {
      R.SettledMeans(c0, if propagation.Failure? then propagation else Success(Answers(propagation, failed)));
    }
  }

  lemma ConcludeFits(phase: Phase, failed: bool, propagation: Result<seq<Receipt>, string>)
    requires phase.Propagating? && phase.listed == map[] && phase.failed == failed
    ensures OutcomeFits(phase, if propagation.Failure? then propagation
                               else Success(propagation.value + [Receipt("postgres", "forget_sources", !failed)]))
  {
  }

  lemma CrashStep<E>(s: Sys<E>)
    ensures Step(s, Crash) == s.(phase := Stopped)
  {
  }

  lemma SettleStep<E>(s: Sys<E>, outcome: Result<seq<Receipt>, string>)
    requires s.phase.Propagating? && OutcomeFits(s.phase, outcome)
    ensures var c := Settled(s.phase.c, outcome);
            Step(s, Settle(outcome)) == Sys(s.db, s.checkpoints[Key(s.phase.req) := c], Answered(s.phase.req, c))
  {
    hide Settled, OutcomeFits;
  }

  lemma ListStep<E>(s: Sys<E>)
    requires s.phase.Updated? && s.phase.req.id in s.db.memories
    ensures var sources := s.db.memories[s.phase.req.id].record.sources;
            var listed := map id | id in s.db.memories && id != s.phase.req.id && s.db.memories[id].record.user == s.phase.req.user
                                   && Shares(sources, s.db.memories[id].record) :: s.db.memories[id].record;
            Step(s, List) == s.(phase := Propagating(s.phase.req, s.phase.c, sources, listed, false)) && |listed| <= |s.db.memories|
  {
    var sources := s.db.memories[s.phase.req.id].record.sources;
    var listed := map id | id in s.db.memories && id != s.phase.req.id && s.db.memories[id].record.user == s.phase.req.user
                           && Shares(sources, s.db.memories[id].record) :: s.db.memories[id].record;
    SubsetSize(listed.Keys, s.db.memories.Keys);
    assert |listed| == |listed.Keys| && |s.db.memories| == |s.db.memories.Keys|;
  }

  lemma {:induction false} SubsetSize<T>(a: set<T>, b: set<T>)
    requires a <= b
    ensures |a| <= |b|
  {
    if a != {} {
      var x :| x in a;
      SubsetSize(a - {x}, b - {x});
    }
  }

  // ---- The worker among others ----

  function ActsOf<E>(w: L.Owner, trace: seq<Event<E>>): seq<A.Event<E>> {
    seq(|trace|, i requires 0 <= i < |trace| => A.Act(w, trace[i]))
  }

  /** What the attempt's own steps reach, they reach among the other attempts. */
  lemma {:induction false} Among<E>(s: A.Sys<E>, w: L.Owner, trace: seq<Event<E>>)
    requires w in s.attempts && forall e :: e in trace ==> Mine(s.attempts[w].req, e)
    ensures A.Run(s, ActsOf(w, trace)) == A.Acted(s, w, Run(A.View(s, w), trace))
  {
    hide Step;
    if trace != [] {
      var n := |trace| - 1;
      Among(s, w, trace[..n]);
      assert ActsOf(w, trace)[..n] == ActsOf(w, trace[..n]);
      assert trace[n] in trace && forall e :: e in trace[..n] ==> e in trace;
      A.ActsMeans(A.Run(s, ActsOf(w, trace[..n])), w, trace[n]);
    }
  }

  /** A claim, the worker's own steps, and the release if it comes to that. */
  function Call<E>(w: L.Owner, req: Request, trace: seq<Event<E>>, released: bool): seq<A.Event<E>> {
    [A.Claim(w, req)] + ActsOf(w, trace) + if released then [A.Release(w)] else []
  }

  lemma {:induction false} RunOn<E>(s: A.Sys<E>, before: seq<A.Event<E>>, after: seq<A.Event<E>>)
    ensures A.Run(s, before + after) == A.Run(A.Run(s, before), after)
  {
    hide A.Step;
    if after == [] {
      assert before + after == before;
    } else {
      var n := |after| - 1;
      RunOn(s, before, after[..n]);
      assert (before + after)[..|before| + n] == before + after[..n];
    }
  }

  /** The call over the tables it found, among attempts that all stand still meanwhile. */
  lemma Called<E>(s: A.Sys<E>, w: L.Owner, req: Request, trace: seq<Event<E>>, released: bool, end: Sys<E>)
    requires w !in s.attempts && A.LeaseAdmits(s, req.user, w)
    requires Reaches(req, Sys(s.db, s.checkpoints, Idle), trace, end) && A.Finished(end.phase)
    ensures A.Run(s, Call(w, req, trace, released)) ==
            A.Sys(end.db, end.checkpoints, s.attempts[w := A.Attempt(req, end.phase)],
                  if released then s.leases - {req.user} else s.leases[req.user := L.Claimed(w, s.clock)], s.clock)
  {
    hide Step, Run, A.Step, A.Run, A.Acted, A.LeaseAdmits;
    var claim: seq<A.Event<E>> := [A.Claim(w, req)];
    var claimed := s.(attempts := s.attempts[w := A.Attempt(req, Idle)], leases := s.leases[req.user := L.Claimed(w, s.clock)]);
    Claimed(s, w, req);
    RunOn(s, claim, ActsOf(w, trace));
    assert A.View(claimed, w) == Sys(s.db, s.checkpoints, Idle);
    ReachesMine(req, Sys(s.db, s.checkpoints, Idle), trace, end);
    Among(claimed, w, trace);
    RunOn(s, claim + ActsOf(w, trace), if released then [A.Release(w)] else []);
    Released(claimed, w, end, released);
    assert s.leases[req.user := L.Claimed(w, s.clock)] - {req.user} == s.leases - {req.user};
    assert claimed.attempts[w := A.Attempt(req, end.phase)] == s.attempts[w := A.Attempt(req, end.phase)];
  }

  lemma ReachesMine<E>(req: Request, start: Sys<E>, trace: seq<Event<E>>, end: Sys<E>)
    requires Reaches(req, start, trace, end)
    ensures (forall e :: e in trace ==> Mine(req, e)) && Run(start, trace) == end
  {
  }

  lemma Claimed<E>(s: A.Sys<E>, w: L.Owner, req: Request)
    requires w !in s.attempts
    ensures A.Run(s, [A.Claim(w, req)]) ==
            if A.LeaseAdmits(s, req.user, w) then
              s.(attempts := s.attempts[w := A.Attempt(req, Idle)], leases := s.leases[req.user := L.Claimed(w, s.clock)])
            else s.(attempts := s.attempts[w := A.Attempt(req, Stopped)])
  {
    var claim: seq<A.Event<E>> := [A.Claim(w, req)];
    assert claim[..0] == [];
  }

  lemma Released<E>(s: A.Sys<E>, w: L.Owner, end: Sys<E>, released: bool)
    requires w in s.attempts && A.Finished(end.phase)
    requires s.attempts[w].req.user in s.leases && s.leases[s.attempts[w].req.user].owner == w
    ensures var user := s.attempts[w].req.user;
            A.Run(A.Acted(s, w, end), if released then [A.Release(w)] else []) ==
            A.Sys(end.db, end.checkpoints, s.attempts[w := s.attempts[w].(phase := end.phase)], if released then s.leases - {user} else s.leases, s.clock)
  {
    var release: seq<A.Event<E>> := [A.Release(w)];
    assert release[..0] == [];
  }

  datatype Answer = Leased | Lost | Answer(c: Checkpoint)

  class Worker<E> {
    const tables: MemoryTables<E>
    const clock: L.Time
    var leases: map<User, L.Lease>
    var checkpoints: map<(User, Id), Checkpoint>
    var budget: nat

    constructor (tables: MemoryTables<E>, clock: L.Time, leases: map<User, L.Lease>, checkpoints: map<(User, Id), Checkpoint>, budget: nat)
      ensures this.tables == tables && this.clock == clock && this.leases == leases
      ensures this.checkpoints == checkpoints && this.budget == budget
    {
      this.tables := tables;
      this.clock := clock;
      this.leases := leases;
      this.checkpoints := checkpoints;
      this.budget := budget;
    }

    /** INSERT .. ON CONFLICT DO UPDATE .. WHERE locked_until <= now OR locked_by = owner. */
    method LifecycleClaim(user: User, owner: L.Owner) returns (claimed: bool)
      modifies `leases
      ensures claimed == (user in old(leases) ==> old(leases)[user].until <= clock || old(leases)[user].owner == owner)
      ensures leases == if claimed then old(leases)[user := L.Claimed(owner, clock)] else old(leases)
    {
      claimed := user !in leases || leases[user].until <= clock || leases[user].owner == owner;
      if claimed {
        leases := leases[user := L.Claimed(owner, clock)];
      }
    }

    /** DELETE .. WHERE locked_by = owner. */
    method LifecycleRelease(user: User, owner: L.Owner)
      modifies `leases
      ensures leases == if user in old(leases) && old(leases)[user].owner == owner then old(leases) - {user} else old(leases)
    {
      if user in leases && leases[user].owner == owner {
        leases := leases - {user};
      }
    }

    /**
     The whole call: it ends where its claim, the attempt's steps and the release end among the other
     attempts; it is refused exactly under somebody's lease; and it answers as completed when nothing
     refuses, the stores acknowledge and the worker lives long enough. `releases` says whether it lives
     to give the lease back.
     */
    method ForgetMemory(w: L.Owner, req: Request, now: Stamp, logical: string, evidence: Record -> E,
                        propagation: Result<seq<Receipt>, string>, releases: bool, ghost others: map<L.Owner, A.Attempt>)
      returns (answer: Answer, ghost events: seq<A.Event<E>>, ghost attempts: map<L.Owner, A.Attempt>)
      requires Keyed(tables.db) && w !in others
      modifies `leases, `checkpoints, `budget, tables
      ensures A.Run(A.Sys(old(tables.db), old(checkpoints), others, old(leases), clock), events) ==
              A.Sys(tables.db, checkpoints, attempts, leases, clock)
      ensures answer.Leased? <==> req.user in old(leases) && clock < old(leases)[req.user].until && old(leases)[req.user].owner != w
      ensures answer.Answer? ==> req.user !in leases && attempts == others[w := A.Attempt(req, Answered(req, answer.c))]
      ensures (req.user in old(leases) ==> old(leases)[req.user].until <= clock || old(leases)[req.user].owner == w)
              && req.id in old(tables.db).memories && old(tables.db).memories[req.id].record.user == req.user && AllStorable(old(tables.db))
              && Acknowledging(Earlier(old(checkpoints), req), propagation)
              && releases && old(budget) >= 4 + |old(tables.db).memories[req.id].record.sources| + |old(tables.db).memories| ==>
                answer.Answer? && answer.c.completed
      ensures answer.Answer? ==> Answerable(old(checkpoints), req, propagation, answer.c)
      ensures answer.Answer? && answer.c.completed && !AnsweredBefore(old(tables.db), old(checkpoints), req) ==> Forgets(old(tables.db), tables.db, req)
    {
      hide Forgets, AnsweredBefore, Acknowledging, Reaches, A.Step, AllStorable, Answerable;
      ghost var start := A.Sys(tables.db, checkpoints, others, leases, clock);
      var claimed := LifecycleClaim(req.user, w);
      if !claimed {
        Claimed(start, w, req);
        return Leased, [A.Claim(w, req)], others[w := A.Attempt(req, Stopped)];
      }
      var c, trace := ForgetClaimed(req, now, logical, evidence, propagation);
      ghost var end := Sys(tables.db, checkpoints, if c.Some? then Answered(req, c.value) else Stopped);
      Called(start, w, req, trace, releases, end);
      if releases {
        LifecycleRelease(req.user, w);
      }
      answer := if releases && c.Some? then Answer(c.value) else Lost;
      return answer, Call(w, req, trace, releases), others[w := A.Attempt(req, end.phase)];
    }

    /** Takes one durable write from the budget; false when the worker is gone. */
    method Spend() returns (alive: bool)
      modifies this`budget
      ensures alive == (old(budget) > 0)
      ensures budget == if alive then old(budget) - 1 else 0
    {
      alive := budget > 0;
      if alive {
        budget := budget - 1;
      }
    }

    /**
     The whole attempt. Besides reaching what the steps reach: with every row fit to be written, receipts
     that acknowledge everything and a worker that lives long enough, the forget completes.
     */
    method ForgetClaimed(req: Request, now: Stamp, logical: string, evidence: Record -> E, propagation: Result<seq<Receipt>, string>)
      returns (answer: Option<Checkpoint>, ghost trace: seq<Event<E>>)
      requires Keyed(tables.db)
      modifies `checkpoints, `budget, tables
      ensures Reaches(req, Sys(old(tables.db), old(checkpoints), Idle), trace,
                      Sys(tables.db, checkpoints, if answer.Some? then Answered(req, answer.value) else Stopped))
      ensures req.id in old(tables.db).memories && old(tables.db).memories[req.id].record.user == req.user && AllStorable(old(tables.db))
              && Acknowledging(Earlier(old(checkpoints), req), propagation)
              && old(budget) >= 4 + |old(tables.db).memories[req.id].record.sources| + |old(tables.db).memories| ==>
                answer.Some? && answer.value.completed
      ensures answer.Some? ==> Answerable(old(checkpoints), req, propagation, answer.value)
      ensures answer.Some? && answer.value.completed && !AnsweredBefore(old(tables.db), old(checkpoints), req) ==> Forgets(old(tables.db), tables.db, req)
    {
      hide Commit, CommitAdmits, Protect, Acknowledging, Writable, Shares, ResolvedCheckpoint, Settled, RedactIf, OutcomeFits, Reports, Answerable, Reaches, Forgets, W.Pending, W.Masked;
      ghost var start := Sys(tables.db, checkpoints, Idle);
      trace := [Begin(req), Load];
      Loads(req, tables.db, checkpoints);
      if req.id !in tables.db.memories || tables.db.memories[req.id].record.user != req.user {
        return None, trace;
      }
      ghost var loaded := Sys(tables.db, checkpoints, Deciding(req, Stored(start, req), tables.db.memories[req.id].record));
      Extend(req, start, trace, loaded, Decide(now));
      DecidesStep(loaded, now);
      hide Step;
      trace := trace + [Decide(now)];
      ProtectedRecord(tables.db, tables.db.memories[req.id].record);
      if AllStorable(tables.db) {
        ProtectedWritable(tables.db, req.id, now);
      }
      var r := Protect(tables.db, tables.db.memories[req.id].record);
      var c: Checkpoint;
      if Key(req) in checkpoints {
        c := checkpoints[Key(req)];
      } else {
        c := Fresh(r);
        r := SoftDelete(r, now);
      }
      assert c.receipts == Earlier(checkpoints, req);
      MaskedStatus(tables.db, tables.db.memories[req.id].record, None, now);
      if c.completed && (!req.redact || c.redaction.Some? || r.status.Redacted?) {
        StoredAnswers(checkpoints, req, propagation);
        return Some(c), trace;
      }
      c := c.(attempts := if c.attempts < MAX_ATTEMPTS then c.attempts + 1 else c.attempts, completed := false);
      ghost var found, was := checkpoints, tables.db;
      W.TakenPending(was, was.memories[req.id].record, if Key(req) in found then Some(found[Key(req)]) else None, now);
      answer, trace := Attempt(start, trace, req, r, c, now, logical, evidence, propagation);
      if answer.Some? {
        AnswersNow(found, req, c.receipts, propagation, answer.value);
      }
    }

    /** From the first durable write to the last. */
    method Attempt(ghost start: Sys<E>, ghost before: seq<Event<E>>, req: Request, r0: Record, c0: Checkpoint, now: Stamp, logical: string,
                   evidence: Record -> E, propagation: Result<seq<Receipt>, string>)
      returns (answer: Option<Checkpoint>, ghost trace: seq<Event<E>>)
      requires r0.id == req.id
      requires Reaches(req, start, before, Sys(tables.db, checkpoints, Intending(req, r0, c0)))
      modifies `checkpoints, `budget, tables
      ensures Reaches(req, start, trace, Sys(tables.db, checkpoints, if answer.Some? then Answered(req, answer.value) else Stopped))
      ensures (Tidy(old(tables.db)) && Writable(old(tables.db), req.id, r0) && Acknowledging(c0.receipts, propagation)
               && old(budget) >= 4 + |r0.sources| + |old(tables.db).memories|) ==> answer.Some? && answer.value.completed
      ensures !c0.completed && answer.Some? ==> exists failed :: Reports(c0.receipts, propagation, failed, answer.value)
      ensures !c0.completed && Keyed(old(tables.db)) && req.id in old(tables.db).memories && answer.Some? && answer.value.completed
              && W.Pending(old(tables.db).memories[req.id].record, W.Masked(old(tables.db), old(tables.db).memories[req.id].record), r0) ==>
                Forgets(old(tables.db), tables.db, req)
    {
      hide Reaches, Commit, CommitAdmits, Acknowledging, Reports, Marks, Rewrites, Forgets, W.Pending, W.Masked, Writable, Tidy, RedactIf, SoftDelete;
      ghost var was := tables.db;
      ghost var s := Sys(tables.db, checkpoints, Intending(req, r0, c0));
      var alive := Spend();
      if !alive {
        Extend(req, start, before, s, Crash);
        return None, before + [Crash];
      }
      checkpoints := checkpoints[Key(req) := c0];
      Extend(req, start, before, s, SaveIntent);
      hide Step;
      alive, trace := MarkSources(start, before + [SaveIntent], req, r0, c0);
      if !alive {
        return None, trace;
      }
      var r, c;
      alive, r, c, trace := ResolveIntent(start, trace, req, r0, c0, now);
      if !alive {
        return None, trace;
      }
      ghost var marked := tables.db;
      SameWritable(was, marked, req.id, r0);
      DerivedRecord(r0, req.redact, now);
      if Writable(tables.db, req.id, r0) {
        DerivedAdmitted(tables.db, logical, req.id, r0, req.redact, now);
      }
      answer, trace := Effects(start, trace, req, r, c, now, logical, evidence, propagation);
      if !c0.completed && Keyed(was) && req.id in was.memories && answer.Some? && answer.value.completed
         && W.Pending(was.memories[req.id].record, W.Masked(was, was.memories[req.id].record), r0) {
        StepsForget(was, marked, tables.db, req, r0, now);
      }
    }

    /** The row and what follows from it. */
    method Effects(ghost start: Sys<E>, ghost before: seq<Event<E>>, req: Request, r: Record, c: Checkpoint, now: Stamp, logical: string,
                   evidence: Record -> E, propagation: Result<seq<Receipt>, string>)
      returns (answer: Option<Checkpoint>, ghost trace: seq<Event<E>>)
      requires r.id == req.id
      requires Reaches(req, start, before, Sys(tables.db, checkpoints, Updating(req, r, c)))
      modifies `checkpoints, `budget, tables
      ensures Reaches(req, start, trace, Sys(tables.db, checkpoints, if answer.Some? then Answered(req, answer.value) else Stopped))
      ensures (Tidy(old(tables.db)) && Writable(old(tables.db), req.id, r) && CommitAdmits(old(tables.db), logical, r)
               && Acknowledging(c.receipts, propagation) && old(budget) >= 2 + |old(tables.db).memories|) ==> answer.Some? && answer.value.completed
      ensures !c.completed && answer.Some? ==> exists failed :: Reports(c.receipts, propagation, failed, answer.value)
      ensures !c.completed && Keyed(old(tables.db)) && req.id in old(tables.db).memories && answer.Some? && answer.value.completed ==>
                Rewrites(old(tables.db), tables.db, req, r)
    {
      hide Reaches, Commit, CommitAdmits, Acknowledging, Reports, Kept, Spreads, Rewrites, Writable;
      ghost var was := tables.db;
      var alive;
      alive, trace := UpdateRecord(start, before, req, r, c, logical, evidence);
      if !alive {
        return None, trace;
      }
      ghost var updated := tables.db;
      if Keyed(was) {
        KeptKeyed(was, updated, req.id);
      }
      answer, trace := Propagate(start, trace, req, c, now, logical, evidence, propagation);
      if !c.completed && Keyed(was) && req.id in was.memories && answer.Some? && answer.value.completed {
        UpdatedSpreads(was, updated, tables.db, req, r);
      }
    }

    /** One durable tombstone per source message. */
    method MarkSources(ghost start: Sys<E>, ghost before: seq<Event<E>>, req: Request, r: Record, c: Checkpoint)
      returns (alive: bool, ghost trace: seq<Event<E>>)
      requires Reaches(req, start, before, Sys(tables.db, checkpoints, Marking(req, r, c, 0)))
      modifies `budget, tables
      ensures Reaches(req, start, trace, Sys(tables.db, checkpoints, if alive then Marking(req, r, c, |r.sources|) else Stopped))
      ensures tables.db.memories == old(tables.db).memories
      ensures alive ==> Marks(old(tables.db).tombstones, tables.db.tombstones, req, r.sources)
      ensures old(budget) >= |r.sources| ==> alive && budget == old(budget) - |r.sources|
    {
      hide Reaches, Marks;
      trace := before;
      MarksNone(tables.db.tombstones, req, r.sources);
      var i := 0;
      while i < |r.sources|
        invariant 0 <= i <= |r.sources|
        invariant Reaches(req, start, trace, Sys(tables.db, checkpoints, Marking(req, r, c, i)))
        invariant tables.db.memories == old(tables.db).memories
        invariant Marks(old(tables.db).tombstones, tables.db.tombstones, req, r.sources[..i])
        invariant old(budget) >= |r.sources| ==> budget == old(budget) - i
      {
        ghost var s := Sys(tables.db, checkpoints, Marking(req, r, c, i));
        alive := Spend();
        if !alive {
          Extend(req, start, trace, s, Crash);
          trace := trace + [Crash];
          return;
        }
        MarksOne(old(tables.db).tombstones, tables.db.tombstones, req, r.sources, i);
        tables.db := tables.db.(tombstones := tables.db.tombstones[(req.user, r.sources[i]) := Tombstone(req.id, req.redact)]);
        i := i + 1;
        Extend(req, start, trace, s, Mark);
        trace := trace + [Mark];
      }
      assert r.sources[..|r.sources|] == r.sources;
      alive := true;
    }

    /** The checkpoint with its transitions. */
    method ResolveIntent(ghost start: Sys<E>, ghost before: seq<Event<E>>, req: Request, r0: Record, c0: Checkpoint, now: Stamp)
      returns (alive: bool, r: Record, c: Checkpoint, ghost trace: seq<Event<E>>)
      requires Reaches(req, start, before, Sys(tables.db, checkpoints, Marking(req, r0, c0, |r0.sources|)))
      modifies `checkpoints, `budget
      ensures Reaches(req, start, trace, Sys(tables.db, checkpoints, if alive then Updating(req, r, c) else Stopped))
      ensures alive == (old(budget) > 0) && budget == if alive then old(budget) - 1 else 0
      ensures alive ==> r == RedactIf(SoftDelete(r0, now), req.redact, now) && c.receipts == c0.receipts && c.completed == c0.completed
    {
      hide Reaches, Commit, CommitAdmits;
      r, c := r0, c0;
      ghost var s := Sys(tables.db, checkpoints, Marking(req, r0, c0, |r0.sources|));
      alive := Spend();
      if !alive {
        Extend(req, start, before, s, Crash);
        return false, r, c, before + [Crash];
      }
      if !Inactive(r) {
        c := c.(transition := Change(r.status, SoftDeleted));
        r := Memories.Transition(r, SoftDeleted, now);
      }
      if req.redact && r.status.SoftDeleted? {
        c := c.(redaction := Some(Change(SoftDeleted, Redacted)));
        r := Memories.Transition(r, Redacted, now);
      }
      checkpoints := checkpoints[Key(req) := c];
      Extend(req, start, before, s, Resolve(now));
      trace := before + [Resolve(now)];
      assert Step(s, Resolve(now)) == Sys(tables.db, checkpoints, Updating(req, r, c));
    }

    /** The record itself, with the plan that goes with it. */
    method UpdateRecord(ghost start: Sys<E>, ghost before: seq<Event<E>>, req: Request, r: Record, c: Checkpoint, logical: string, evidence: Record -> E)
      returns (updated: bool, ghost trace: seq<Event<E>>)
      requires r.id == req.id
      requires Reaches(req, start, before, Sys(tables.db, checkpoints, Updating(req, r, c)))
      modifies `budget, tables
      ensures Reaches(req, start, trace, Sys(tables.db, checkpoints, if updated then Updated(req, c) else Stopped))
      ensures updated ==> req.id in tables.db.memories && tables.db.memories[req.id].record == r
      ensures updated ==> (forall id :: id in old(tables.db).memories && id != req.id ==> Kept(old(tables.db), tables.db, id))
                          && tables.db.memories.Keys == old(tables.db).memories.Keys + {req.id} && tables.db.tombstones == old(tables.db).tombstones
      ensures Tidy(old(tables.db)) && Writable(old(tables.db), req.id, r) && CommitAdmits(old(tables.db), logical, r) && old(budget) > 0 ==>
                && updated && budget == old(budget) - 1
                && Tidy(tables.db) && tables.db.memories.Keys == old(tables.db).memories.Keys
    {
      hide Reaches, CommitAdmits, Tidy, Commit, Writable;
      ghost var s, was := Sys(tables.db, checkpoints, Updating(req, r, c)), tables.db;
      var alive := Spend();
      if !alive {
        Extend(req, start, before, s, Crash);
        return false, before + [Crash];
      }
      Extend(req, start, before, s, Update(logical, evidence(r)));
      trace := before + [Update(logical, evidence(r))];
      updated := tables.CommitMemory(logical, r, evidence(r));
      CommitRow(was, logical, r, evidence(r));
      if Tidy(was) && Writable(was, req.id, r) && CommitAdmits(was, logical, r) {
        CommitTidy(was, logical, r, evidence(r));
      }
    }

    /** The cascade over the rows that share a source, the other stores' receipts, and the final checkpoint. */
    method Propagate(ghost start: Sys<E>, ghost before: seq<Event<E>>, req: Request, c0: Checkpoint, now: Stamp, logical: string,
                     evidence: Record -> E, propagation: Result<seq<Receipt>, string>)
      returns (answer: Option<Checkpoint>, ghost trace: seq<Event<E>>)
      requires Reaches(req, start, before, Sys(tables.db, checkpoints, Updated(req, c0)))
      requires req.id in tables.db.memories
      modifies `checkpoints, `budget, tables
      ensures Reaches(req, start, trace, Sys(tables.db, checkpoints, if answer.Some? then Answered(req, answer.value) else Stopped))
      ensures Tidy(old(tables.db)) && Acknowledging(c0.receipts, propagation) && old(budget) > |old(tables.db).memories| ==>
                answer.Some? && answer.value.completed
      ensures !c0.completed && answer.Some? ==> exists failed :: Reports(c0.receipts, propagation, failed, answer.value)
      ensures !c0.completed && Keyed(old(tables.db)) && answer.Some? && answer.value.completed ==> Spreads(old(tables.db), tables.db, req)
    {
      hide Shares, Commit, CommitAdmits, Acknowledging, Reaches, Reports, Cascaded, Spreads, Step;
      ghost var s := Sys(tables.db, checkpoints, Updated(req, c0));
      var sources := tables.db.memories[req.id].record.sources;
      var listed := map id | id in tables.db.memories && id != req.id && tables.db.memories[id].record.user == req.user
                             && Shares(sources, tables.db.memories[id].record) :: tables.db.memories[id].record;
      ListStep(s);
      Extend(req, start, before, s, List);
      trace := before + [List];
      var alive, failed: bool;
      alive, failed, trace := CascadeAll(start, trace, req, c0, sources, listed, now, logical, evidence);
      if !alive {
        return None, trace;
      }
      if !failed && Keyed(old(tables.db)) {
        CascadeSpreads(old(tables.db), tables.db, req, listed);
      }
      answer, trace := Conclude(start, trace, req, c0, sources, failed, propagation);
    }

    /** Receipts merged into the checkpoint, which is then saved for the last time. */
    method Conclude(ghost start: Sys<E>, ghost before: seq<Event<E>>, req: Request, c0: Checkpoint, ghost sources: seq<Source>, failed: bool,
                  propagation: Result<seq<Receipt>, string>)
      returns (answer: Option<Checkpoint>, ghost trace: seq<Event<E>>)
      requires Reaches(req, start, before, Sys(tables.db, checkpoints, Propagating(req, c0, sources, map[], failed)))
      modifies `checkpoints, `budget
      ensures Reaches(req, start, trace, Sys(tables.db, checkpoints, if answer.Some? then Answered(req, answer.value) else Stopped))
      ensures !failed && Acknowledging(c0.receipts, propagation) && old(budget) > 0 ==> answer.Some? && answer.value.completed
      ensures !c0.completed && answer.Some? ==> Reports(c0.receipts, propagation, failed, answer.value)
      ensures !c0.completed && answer.Some? && answer.value.completed ==> !failed
    {
      hide Reaches, Acknowledging, Settled, OutcomeFits, Reports, Step;
      var outcome := if propagation.Failure? then propagation
                     else Success(propagation.value + [Receipt("postgres", "forget_sources", !failed)]);
      ghost var s := Sys(tables.db, checkpoints, Propagating(req, c0, sources, map[], failed));
      CompletesWhenAcknowledged(c0, failed, propagation);
      ConcludeFits(s.phase, failed, propagation);
      SettleStep(s, outcome);
      CrashStep(s);
      if !c0.completed {
        SettledReports(c0, failed, propagation);
        if failed {
          FailedNeverCompletes(c0, propagation);
        }
      }
      var c := Judge(c0, outcome);
      var alive := Spend();
      if !alive {
        Extend(req, start, before, s, Crash);
        return None, before + [Crash];
      }
      checkpoints := checkpoints[Key(req) := c];
      Extend(req, start, before, s, Settle(outcome));
      return Some(c), before + [Settle(outcome)];
    }

    /** One row of the cascade. */
    method CascadeOne(ghost start: Sys<E>, ghost before: seq<Event<E>>, req: Request, c: Checkpoint, ghost sources: seq<Source>,
                      listed: map<Id, Record>, failed0: bool, id: Id, now: Stamp, logical: string, evidence: Record -> E)
      returns (alive: bool, failed: bool, ghost trace: seq<Event<E>>)
      requires id in listed && Reaches(req, start, before, Sys(tables.db, checkpoints, Propagating(req, c, sources, listed, failed0)))
      modifies `budget, tables
      ensures Reaches(req, start, trace, Sys(tables.db, checkpoints, if alive then Propagating(req, c, sources, listed - {id}, failed) else Stopped))
      ensures alive == (old(budget) > 0) && budget == if alive then old(budget) - 1 else 0
      ensures alive && AllWritable(old(tables.db), listed) ==> failed == failed0 && AllWritable(tables.db, listed - {id})
      ensures tables.db.tombstones == old(tables.db).tombstones
      ensures alive && !failed && listed[id].id == id ==> !failed0 && id in tables.db.memories && W.Planned(listed[id], false, req.redact, tables.db.memories[id].record)
      ensures listed[id].id == id ==> forall o :: o in old(tables.db).memories && o != id ==> Kept(old(tables.db), tables.db, o)
      ensures listed[id].id == id ==> tables.db.memories.Keys <= old(tables.db).memories.Keys + {id}
    {
      hide Reaches, Writable, Commit, CommitAdmits;
      ghost var s, was := Sys(tables.db, checkpoints, Propagating(req, c, sources, listed, failed0)), tables.db;
      alive := Spend();
      if !alive {
        Extend(req, start, before, s, Crash);
        return false, failed0, before + [Crash];
      }
      var derived := RedactIf(SoftDelete(listed[id], now), req.redact, now);
      Extend(req, start, before, s, Cascade(id, now, logical, evidence(derived)));
      trace := before + [Cascade(id, now, logical, evidence(derived))];
      var written := tables.CommitMemory(logical, derived, evidence(derived));
      failed := failed0 || !written;
      W.CascadePlanned(listed[id], req.redact, now);
      CommitRow(was, logical, derived, evidence(derived));
      DerivedRecord(listed[id], req.redact, now);
      if AllWritable(was, listed) {
        DerivedAdmitted(was, logical, id, listed[id], req.redact, now);
        DerivedRecord(listed[id], req.redact, now);
        WritableId(was, id, listed[id]);
        forall other | other in listed && other != id
          ensures Writable(tables.db, other, listed[other])
        {
          StillWritable(was, logical, derived, evidence(derived), other, listed[other]);
        }
      }
    }

    method CascadeAll(ghost start: Sys<E>, ghost before: seq<Event<E>>, req: Request, c: Checkpoint, ghost sources: seq<Source>,
                      all: map<Id, Record>, now: Stamp, logical: string, evidence: Record -> E)
      returns (alive: bool, failed: bool, ghost trace: seq<Event<E>>)
      requires Reaches(req, start, before, Sys(tables.db, checkpoints, Propagating(req, c, sources, all, false)))
      modifies `budget, tables
      ensures Reaches(req, start, trace, Sys(tables.db, checkpoints, if alive then Propagating(req, c, sources, map[], failed) else Stopped))
      ensures old(budget) >= |all| && AllWritable(old(tables.db), all) ==> alive && !failed && budget >= old(budget) - |all|
      ensures alive && !failed && Rows(old(tables.db), all) ==> Cascaded(old(tables.db), tables.db, all, {}, req.redact)
    {
      hide Reaches, AllWritable, W.Planned, Cascaded, Rows, Kept;
      ghost var fit := old(budget) >= |all| && AllWritable(tables.db, all);
      var listed := all;
      failed := false;
      trace := before;
      ghost var was := tables.db;
      CascadedNone(was, all, req.redact);
      while listed.Keys != {}
        invariant listed.Keys <= all.Keys && forall id :: id in listed ==> listed[id] == all[id]
        invariant !failed && Rows(was, all) ==> Cascaded(was, tables.db, all, listed.Keys, req.redact)
        invariant Reaches(req, start, trace, Sys(tables.db, checkpoints, Propagating(req, c, sources, listed, failed)))
        invariant fit ==> !failed && budget >= old(budget) - |all| + |listed| && AllWritable(tables.db, listed)
        decreases listed.Keys
      {
        var id :| id in listed;
        ghost var rest := listed - {id};
        assert rest.Keys == listed.Keys - {id} && |rest| == |rest.Keys| && |listed| == |listed.Keys|;
        ghost var mid := tables.db;
        alive, failed, trace := CascadeOne(start, trace, req, c, sources, listed, failed, id, now, logical, evidence);
        if !alive {
          return;
        }
        if !failed && Rows(was, all) {
          RowsId(was, all, id);
          CascadedMore(was, mid, tables.db, all, listed.Keys, id, req.redact);
        }
        listed := listed - {id};
      }
      assert listed == map[];
      assert listed.Keys == {};
      alive := true;
    }
  }
}
