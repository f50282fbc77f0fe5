/**
 When a forget's redaction is carried out: what one attempt does, what undoes it, and what holds over
 runs that neither drop a redaction nor write late.
 */
module ForgetRedaction {
  import opened Wrappers
  import opened Memories
  import opened ForgetIntent
  import opened Attempts
  import opened UserLease
  import opened ForgetRuns
  import F = Forget
  import Runs = MemoryRuns

  // ---- One attempt ----

  /** A redaction changes the status and erases the content; each can be asked for by itself. */
  datatype Aspect = Status | Content

  predicate Gone(a: Aspect, r: Record) {
    match a
    case Status => r.status.Redacted?
    case Content => Blank(r)
  }

  /** The stored checkpoint speaks of a redaction only if the row shows it. */
  predicate CarriedOut<E>(a: Aspect, s: Sys<E>, user: User, id: Id) {
    (user, id) in s.checkpoints && s.checkpoints[(user, id)].redaction.Some? ==>
      id in s.db.memories && Gone(a, s.db.memories[id].record)
  }

  /** A request without redaction takes over an unfinished attempt that had recorded one, and reads a record that does not show it. */
  predicate Drops<E>(a: Aspect, db: Db<E>, req: F.Request, existing: Option<F.Checkpoint>, r: Record) {
    && !req.redact && existing.Some? && !existing.value.completed && existing.value.redaction.Some?
    && !Gone(a, F.Protect(db, r))
  }

  predicate Pending(a: Aspect, req: F.Request, r: Record, c: F.Checkpoint, dropped: bool) {
    && (c.redaction.Some? ==> (dropped <==> !req.redact && !Gone(a, r)))
    && (dropped ==> c.redaction.Some?)
  }

  predicate RowTracks<E>(a: Aspect, db: Db<E>, req: F.Request, c: F.Checkpoint, dropped: bool) {
    && req.id in db.memories && db.memories[req.id].record.user == req.user && F.Inactive(db.memories[req.id].record)
    && (c.redaction.Some? ==> (dropped <==> !Gone(a, db.memories[req.id].record)))
    && (dropped ==> c.redaction.Some?)
    && (req.redact ==> db.memories[req.id].record.status.Redacted?)
  }

  /** The attempt's record or row will show the redaction its checkpoint speaks of; `dropped` says it will not. */
  predicate Track<E>(a: Aspect, v: F.Sys<E>, req: F.Request, dropped: bool) {
    match v.phase
    case Stopped => true
    case Intending(q, r, c) => q == req && Pending(a, req, r, c, dropped)
    case Marking(q, r, c, _) => q == req && Pending(a, req, r, c, dropped)
    case Updating(q, r, c) => q == req && (c.redaction.Some? ==> (dropped <==> !Gone(a, r))) && (dropped ==> c.redaction.Some?)
    case Updated(q, c) => q == req && RowTracks(a, v.db, req, c, dropped)
    case Propagating(q, c, _, _, _) => q == req && RowTracks(a, v.db, req, c, dropped)
    case Answered(q, c) => q == req && (c.completed ==> RowTracks(a, v.db, req, c, dropped))
    case _ => false
  }

  lemma MaskedGone<E>(a: Aspect, db: Db<E>, r: Record, existing: Option<F.Checkpoint>, now: Stamp)
    ensures Gone(a, F.Taken(existing, F.Protect(db, r), now)) <==> Gone(a, F.Protect(db, r))
  {
  }

  /** A record that passes the transitions of an attempt shows the redaction if it is asked for, and otherwise exactly if it did before. */
  lemma ResolvedGone(a: Aspect, r: Record, redact: bool, now: Stamp)
    requires BlankIfRedacted(r)
    ensures Gone(a, F.RedactIf(F.SoftDelete(r, now), redact, now)) <==> redact || Gone(a, r)
  {
  }

  lemma TrackResolve<E>(a: Aspect, v: F.Sys<E>, now: Stamp, req: F.Request, dropped: bool)
    requires Prepared(v) && Track(a, v, req, dropped) && v.phase.Marking? && v.phase.done == |v.phase.r.sources|
    ensures Track(a, F.Step(v, F.Resolve(now)), req, dropped)
  {
    hide Blank, Gone;
    ResolvedGone(a, v.phase.r, req.redact, now);
  }

  lemma TrackUpdate<E>(a: Aspect, v: F.Sys<E>, logical: string, evidence: E, req: F.Request, dropped: bool)
    requires Prepared(v) && Track(a, v, req, dropped) && v.phase.Updating?
    ensures Track(a, F.Step(v, F.Update(logical, evidence)), req, dropped)
  {
    hide Commit, CommitAdmits, Gone;
    F.CommitRow(v.db, logical, v.phase.r, evidence);
  }

  /** The cascade never writes the attempt's own row. */
  lemma TrackCascade<E>(a: Aspect, v: F.Sys<E>, id: Id, now: Stamp, logical: string, evidence: E, req: F.Request, dropped: bool)
    requires F.PhaseInv(v) && Track(a, v, req, dropped) && v.phase.Propagating? && id in v.phase.listed
    ensures Track(a, F.Step(v, F.Cascade(id, now, logical, evidence)), req, dropped)
  {
    hide Commit, CommitAdmits, Gone, F.Live, F.Shares;
    var derived := F.RedactIf(F.SoftDelete(v.phase.listed[id], now), v.phase.req.redact, now);
    F.DerivedRecord(v.phase.listed[id], v.phase.req.redact, now);
    F.CommitRow(v.db, logical, derived, evidence);
  }

  lemma TrackQuiet<E>(a: Aspect, v: F.Sys<E>, e: F.Event<E>, req: F.Request, dropped: bool)
    requires F.PhaseInv(v) && Track(a, v, req, dropped)
    requires !e.Resolve? && !e.Update? && !e.Cascade? && !e.Env?
    ensures Track(a, F.Step(v, e), req, dropped)
  {
    hide Gone, F.PropagatingInv, F.UpdatingInv, F.MarkingInv, F.AnsweredInv, F.Forgotten, F.Shares, F.MergeReceipts, F.AllAcknowledged;
  }

  lemma TrackAct<E>(a: Aspect, v: F.Sys<E>, e: F.Event<E>, req: F.Request, dropped: bool)
    requires F.PhaseInv(v) && Prepared(v) && Track(a, v, req, dropped) && !e.Env?
    ensures Track(a, F.Step(v, e), req, dropped)
  {
    hide Track, F.PhaseInv, Prepared, Commit, CommitAdmits;
    match e {
      case Resolve(now) =>
        if v.phase.Marking? && v.phase.done == |v.phase.r.sources| {
          TrackResolve(a, v, now, req, dropped);
        }
      case Update(logical, evidence) =>
        if v.phase.Updating? {
          TrackUpdate(a, v, logical, evidence, req, dropped);
        }
      case Cascade(id, now, logical, evidence) =>
        if v.phase.Propagating? && id in v.phase.listed {
          TrackCascade(a, v, id, now, logical, evidence, req, dropped);
        }
      case _ => TrackQuiet(a, v, e, req, dropped);
    }
  }

  /** Changes of tables that leave the attempt's forgotten row alone. */
  lemma TrackFrame<E>(a: Aspect, v: F.Sys<E>, v': F.Sys<E>, req: F.Request, dropped: bool)
    requires Track(a, v, req, dropped) && v'.phase == v.phase
    requires (req.id in v.db.memories && v.db.memories[req.id].record.user == req.user && F.Inactive(v.db.memories[req.id].record)) ==>
               req.id in v'.db.memories && v'.db.memories[req.id].record == v.db.memories[req.id].record
    ensures Track(a, v', req, dropped)
  {
    hide Gone;
  }

  lemma TrackStep<E>(a: Aspect, s: Sys<E>, e: Event<E>, w: Owner, dropped: bool)
    requires Inv(s) && Intent(s) && OnTime(s, e) && w in s.attempts && Holds(Step(s, e), w)
    requires Track(a, View(s, w), s.attempts[w].req, dropped)
    ensures Track(a, View(Step(s, e), w), s.attempts[w].req, dropped)
  {
    hide F.Step, Runs.Step, F.EnvAllowed, Inv, Intent, Track, OnTime, Holds;
    HeldBefore(s, e, w);
    if e.Act? && e.w == w {
      if Acts(s, w, e.e) {
        ActsMeans(s, w, e.e);
        HolderView(s, w);
        IntentView(s, w);
        TrackAct(a, View(s, w), e.e, s.attempts[w].req, dropped);
        assert View(Step(s, e), w) == F.Step(View(s, w), e.e);
      }
    } else {
      OthersLeaveRow(s, e, w);
      TrackFrame(a, View(s, w), View(Step(s, e), w), s.attempts[w].req, dropped);
    }
  }

  lemma {:induction false} TrackRun<E>(a: Aspect, s: Sys<E>, events: seq<Event<E>>, w: Owner, dropped: bool)
    requires Inv(s) && Intent(s) && AllOnTime(s, events) && w in s.attempts
    requires Track(a, View(s, w), s.attempts[w].req, dropped) && Holds(Run(s, events), w)
    ensures w in Run(s, events).attempts && Run(s, events).attempts[w].req == s.attempts[w].req
    ensures Track(a, View(Run(s, events), w), s.attempts[w].req, dropped)
  {
    hide Inv, Intent, Step, Track, OnTime, Holds;
    if events != [] {
      var before := events[..|events| - 1];
      RunInv(s, before);
      StaysAttempt(s, before, w);
      HeldBefore(Run(s, before), events[|events| - 1], w);
      TrackRun(a, s, before, w, dropped);
      TrackStep(a, Run(s, before), events[|events| - 1], w, dropped);
    }
  }

  /** A decision that goes on starts the record on its way. */
  lemma TrackDecide<E>(a: Aspect, v: F.Sys<E>, now: Stamp)
    requires Prepared(v) && v.phase.Deciding? && F.Step(v, F.Decide(now)).phase.Intending?
    ensures Track(a, F.Step(v, F.Decide(now)), v.phase.req, Drops(a, v.db, v.phase.req, v.phase.existing, v.phase.r))
  {
    var p, masked := v.phase, F.Protect(v.db, v.phase.r);
    MaskedGone(a, v.db, p.r, p.existing, now);
    MaskedOwn(v.db, p.req, p.existing, p.r, now);
    hide Gone, F.Protect, F.SoftDelete;
  }

  /**
   In a run without late writes, an attempt that runs to a completed answer leaves the row redacted, in
   status and in content, whenever its checkpoint speaks of a redaction, if and only if the request did
   not drop an unfinished one; and it always does what a redacting request asked for.
   */
  lemma AttemptRedactsIff<E>(a: Aspect, s: Sys<E>, w: Owner, now: Stamp, events: seq<Event<E>>)
    requires Inv(s) && Intent(s) && w in s.attempts && s.attempts[w].phase.Deciding?
    requires var s1 := Step(s, Act(w, F.Decide(now)));
             && s1.attempts[w].phase.Intending? && AllOnTime(s1, events) && Holds(Run(s1, events), w)
             && Run(s1, events).attempts[w].phase.Answered? && Run(s1, events).attempts[w].phase.c.completed
    ensures var p := s.attempts[w].phase; var end := Run(Step(s, Act(w, F.Decide(now))), events);
            && (CarriedOut(a, end, p.req.user, p.req.id) <==> !Drops(a, s.db, p.req, p.existing, p.r))
            && (p.req.redact ==> p.req.id in end.db.memories && end.db.memories[p.req.id].record.status.Redacted?)
  {
    hide Inv, Intent, F.Step, Prepared, Drops, AllOnTime, Run, Holds;
    var p, e := s.attempts[w].phase, Act(w, F.Decide(now));
    var s1, dropped := Step(s, e), Drops(a, s.db, p.req, p.existing, p.r);
    var end := Run(s1, events);
    IntentView(s, w);
    TrackDecide(a, View(s, w), now);
    StepInv(s, e);
    StepIntent(s, e);
    TrackRun(a, s1, events, w, dropped);
    RunInv(s1, events);
    HolderView(end, w);
    ConsistentAttempt(s, w);
    AnsweredStored(end, w);
  }

  lemma AnsweredStored<E>(s: Sys<E>, w: Owner)
    requires w in s.attempts && F.PhaseInv(View(s, w)) && s.attempts[w].phase.Answered? && s.attempts[w].phase.c.completed
    ensures F.Key(s.attempts[w].phase.req) in s.checkpoints && s.checkpoints[F.Key(s.attempts[w].phase.req)] == s.attempts[w].phase.c
  {
  }

  /** The record a step of an attempt writes to its row, if it writes one. */
  function Written<E>(v: F.Sys<E>, e: F.Event<E>): Option<Record> {
    match e
    case Update(logical, _) =>
      if v.phase.Updating? && CommitAdmits(v.db, logical, v.phase.r) then Some(v.phase.r) else None
    case Cascade(id, now, logical, _) =>
      if !(v.phase.Propagating? && id in v.phase.listed) then None
      else
        var derived := F.RedactIf(F.SoftDelete(v.phase.listed[id], now), v.phase.req.redact, now);
        if CommitAdmits(v.db, logical, derived) then Some(derived) else None
    case _ => None
  }

  /** The step writes a record that is not redacted over the row. */
  predicate Undoes<E>(s: Sys<E>, e: Event<E>, id: Id) {
    && e.Act? && Acts(s, e.w, e.e) && Written(View(s, e.w), e.e).Some?
    && Written(View(s, e.w), e.e).value.id == id && !Written(View(s, e.w), e.e).value.status.Redacted?
  }

  lemma OtherStepsKeepRows<E>(v: F.Sys<E>, e: F.Event<E>)
    requires !e.Env? && !e.Update? && !e.Cascade?
    ensures F.Step(v, e).db.memories == v.db.memories
  {
    hide F.Protect, F.Shares, F.Settled, F.ResolvedCheckpoint, F.SoftDelete, F.RedactIf, F.CompletedFor;
  }

  lemma WrittenRow<E>(v: F.Sys<E>, e: F.Event<E>, id: Id)
    requires !e.Env? && id in v.db.memories
    ensures id in F.Step(v, e).db.memories
    ensures F.Step(v, e).db.memories[id].record ==
            if Written(v, e).Some? && Written(v, e).value.id == id then Written(v, e).value else v.db.memories[id].record
  {
    hide Commit, CommitAdmits, F.SoftDelete, F.RedactIf;
    match e {
      case Update(logical, evidence) =>
        if v.phase.Updating? {
          F.CommitRow(v.db, logical, v.phase.r, evidence);
        }
      case Cascade(other, now, logical, evidence) =>
        if v.phase.Propagating? && other in v.phase.listed {
          F.CommitRow(v.db, logical, F.RedactIf(F.SoftDelete(v.phase.listed[other], now), v.phase.req.redact, now), evidence);
        }
      case _ => OtherStepsKeepRows(v, e);
    }
  }

  /** A redacted row stops being redacted in a step if and only if an attempt writes over it a record that is not. */
  lemma RedactionUndoneIff<E>(s: Sys<E>, e: Event<E>, id: Id)
    requires id in s.db.memories && s.db.memories[id].record.status.Redacted?
    ensures id in Step(s, e).db.memories
    ensures !Step(s, e).db.memories[id].record.status.Redacted? <==> Undoes(s, e, id)
  {
    hide F.Step, Runs.Step, F.EnvAllowed, Written;
    if e.Act? && Acts(s, e.w, e.e) {
      ActsMeans(s, e.w, e.e);
      WrittenRow(View(s, e.w), e.e, id);
    } else if e.Env? && F.EnvAllowed(e.env) {
      F.EnvRow(s.db, e.env, id);
    }
  }

  /** An attempt within its lease never does that. */
  lemma InTimeNeverUndoes<E>(s: Sys<E>, e: Event<E>, id: Id)
    requires Inv(s) && OnTime(s, e)
    requires id in s.db.memories && s.db.memories[id].record.status.Redacted?
    ensures !Undoes(s, e, id) && id in Step(s, e).db.memories && Step(s, e).db.memories[id].record.status.Redacted?
  {
    hide Inv, F.Step, Runs.Step, F.EnvAllowed, Holds, Undoes;
    RedactionUndoneIff(s, e, id);
    if e.Act? && Acts(s, e.w, e.e) {
      ActsMeans(s, e.w, e.e);
      if Holds(s, e.w) {
        HolderInv(s, e.w);
        F.StepCareful(View(s, e.w), e.e);
        GrowsRedacted(View(s, e.w), F.Step(View(s, e.w), e.e), id);
      } else {
        ReadsOnly(View(s, e.w), e.e);
      }
    } else {
      NotAnAct(s, e, id);
    }
  }

  lemma NotAnAct<E>(s: Sys<E>, e: Event<E>, id: Id)
    requires !(e.Act? && Acts(s, e.w, e.e))
    ensures !Undoes(s, e, id)
  {
  }

  lemma GrowsRedacted<E>(v: F.Sys<E>, v': F.Sys<E>, id: Id)
    requires F.Careful(v, v') && id in v.db.memories && v.db.memories[id].record.status.Redacted?
    ensures id in v'.db.memories && v'.db.memories[id].record.status.Redacted?
  {
    hide F.Forgotten, F.Live, F.Marked, Tombstoned;
  }

  // ---- Runs that drop no redaction ----

  /** The step does not decide to take over an unfinished redaction without asking for it. */
  predicate DropFree<E>(s: Sys<E>, e: Event<E>) {
    e.Act? && e.e.Decide? && Acts(s, e.w, e.e) && s.attempts[e.w].phase.Deciding? ==>
      !Drops(Status, s.db, s.attempts[e.w].phase.req, s.attempts[e.w].phase.existing, s.attempts[e.w].phase.r)
  }

  predicate NeverDrops<E>(s: Sys<E>, events: seq<Event<E>>) {
    events != [] ==>
      NeverDrops(s, events[..|events| - 1]) && DropFree(Run(s, events[..|events| - 1]), events[|events| - 1])
  }

  predicate PastDeciding(p: F.Phase) {
    !p.Idle? && !p.Loading? && !p.Deciding?
  }

  ghost predicate Carries<E>(s: Sys<E>) {
    forall user, id :: (user, id) in s.checkpoints && s.checkpoints[(user, id)].completed ==> CarriedOut(Status, s, user, id)
  }

  ghost predicate Sound<E>(s: Sys<E>) {
    && Carries(s)
    && forall w :: Holds(s, w) && PastDeciding(s.attempts[w].phase) ==> Track(Status, View(s, w), s.attempts[w].req, false)
  }

  /** A decision that ends at once answers from the stored checkpoint, whose redaction the row shows. */
  lemma AnswerTracks<E>(s: Sys<E>, w: Owner, now: Stamp)
    requires w in s.attempts && F.PhaseInv(View(s, w)) && Prepared(View(s, w)) && Carries(s) && s.attempts[w].phase.Deciding?
    requires F.Step(View(s, w), F.Decide(now)).phase.Answered?
    ensures Track(Status, F.Step(View(s, w), F.Decide(now)), s.attempts[w].phase.req, false)
  {
    var p := s.attempts[w].phase;
    F.MaskedStatus(s.db, p.r, p.existing, now);
    assert CarriedOut(Status, s, p.req.user, p.req.id);
    hide F.Protect, F.SoftDelete, F.AllAcknowledged, Blank;
  }

  lemma DecideTracks<E>(s: Sys<E>, w: Owner, now: Stamp)
    requires Inv(s) && Intent(s) && Sound(s) && Holds(s, w) && Acts(s, w, F.Decide(now)) && s.attempts[w].phase.Deciding?
    requires DropFree(s, Act(w, F.Decide(now)))
    ensures Track(Status, F.Step(View(s, w), F.Decide(now)), s.attempts[w].req, false)
  {
    hide F.Step, Inv, Intent, Prepared, F.PhaseInv, Track, Drops, Carries;
    HolderView(s, w);
    IntentView(s, w);
    ConsistentAttempt(s, w);
    DecideOutcome(View(s, w), now);
    if F.Step(View(s, w), F.Decide(now)).phase.Intending? {
      TrackDecide(Status, View(s, w), now);
    } else {
      AnswerTracks(s, w, now);
    }
  }

  lemma DecideOutcome<E>(v: F.Sys<E>, now: Stamp)
    requires v.phase.Deciding?
    ensures F.Step(v, F.Decide(now)).phase.Intending? || F.Step(v, F.Decide(now)).phase.Answered?
  {
  }

  lemma SoundTracks<E>(s: Sys<E>, e: Event<E>, w: Owner)
    requires Inv(s) && Intent(s) && Sound(s) && OnTime(s, e) && DropFree(s, e)
    requires Holds(Step(s, e), w) && PastDeciding(Step(s, e).attempts[w].phase)
    ensures Track(Status, View(Step(s, e), w), Step(s, e).attempts[w].req, false)
  {
    hide F.Step, Runs.Step, F.EnvAllowed, Inv, Intent, Track, OnTime, DropFree, Carries;
    var s' := Step(s, e);
    if w !in s.attempts {
      FreshAttempt(s, e, w);
      StoppedTracks(View(s', w), s'.attempts[w].req);
    } else {
      HeldBefore(s, e, w);
      if PastDeciding(s.attempts[w].phase) {
        TrackStep(Status, s, e, w, false);
      } else if e.Act? && e.w == w && Acts(s, w, e.e) {
        ActsMeans(s, w, e.e);
        EarlyStep(View(s, w), e.e);
        if e.e.Decide? && s.attempts[w].phase.Deciding? {
          DecideTracks(s, w, e.e.now);
        } else {
          StoppedTracks(View(s', w), s'.attempts[w].req);
        }
      }
    }
  }

  lemma FreshAttempt<E>(s: Sys<E>, e: Event<E>, w: Owner)
    requires w !in s.attempts && w in Step(s, e).attempts
    ensures Step(s, e).attempts[w].phase.Idle? || Step(s, e).attempts[w].phase.Stopped?
  {
    hide F.Step, Runs.Step, F.EnvAllowed;
  }

  lemma StoppedTracks<E>(v: F.Sys<E>, req: F.Request)
    requires v.phase.Stopped?
    ensures Track(Status, v, req, false)
  {
  }

  /** Before its decision an attempt only reads. */
  lemma EarlyStep<E>(v: F.Sys<E>, e: F.Event<E>)
    requires !PastDeciding(v.phase) && !e.Env? && PastDeciding(F.Step(v, e).phase)
    ensures (e.Decide? && v.phase.Deciding?) || F.Step(v, e).phase.Stopped?
  {
    hide F.Protect, F.SoftDelete;
  }

  /** A checkpoint that a step makes completed is the answer its attempt gives. */
  lemma CompletedIsAnswered<E>(v: F.Sys<E>, e: F.Event<E>, key: (User, Id))
    requires Prepared(v) && !e.Env?
    requires key in F.Step(v, e).checkpoints && F.Step(v, e).checkpoints[key].completed
    ensures (key in v.checkpoints && v.checkpoints[key] == F.Step(v, e).checkpoints[key])
            || (F.Step(v, e).phase.Answered? && key == F.Key(F.Step(v, e).phase.req) && F.Step(v, e).phase.c == F.Step(v, e).checkpoints[key])
  {
    hide Commit, CommitAdmits, F.MergeReceipts, F.AllAcknowledged, F.Protect, F.SoftDelete, F.Shares, Blank;
  }

  lemma CarriedKept<E>(s: Sys<E>, e: Event<E>, user: User, id: Id)
    requires Inv(s) && Intent(s) && Sound(s) && OnTime(s, e) && DropFree(s, e)
    requires (user, id) in Step(s, e).checkpoints && Step(s, e).checkpoints[(user, id)].completed
    ensures CarriedOut(Status, Step(s, e), user, id)
  {
    hide F.Step, Runs.Step, F.EnvAllowed, Inv, Intent, Track, OnTime, DropFree, Holds;
    var s' := Step(s, e);
    if (user, id) in s.checkpoints && s.checkpoints[(user, id)] == s'.checkpoints[(user, id)] {
      assert CarriedOut(Status, s, user, id);
      if s.checkpoints[(user, id)].redaction.Some? {
        InTimeNeverUndoes(s, e, id);
      }
    } else {
      CheckpointChanged(s, e, (user, id));
      ActsMeans(s, e.w, e.e);
      IntentView(s, e.w);
      CompletedIsAnswered(View(s, e.w), e.e, (user, id));
      WriterHolds(s, e, (user, id));
      SoundTracks(s, e, e.w);
      AnsweredRow(View(s', e.w), s'.attempts[e.w].req);
    }
  }

  lemma CheckpointChanged<E>(s: Sys<E>, e: Event<E>, key: (User, Id))
    requires key in Step(s, e).checkpoints && !(key in s.checkpoints && s.checkpoints[key] == Step(s, e).checkpoints[key])
    ensures e.Act? && Acts(s, e.w, e.e)
  {
    hide F.Step, Runs.Step, F.EnvAllowed;
  }

  lemma WriterHolds<E>(s: Sys<E>, e: Event<E>, key: (User, Id))
    requires e.Act? && Acts(s, e.w, e.e) && OnTime(s, e)
    requires key in Step(s, e).checkpoints && !(key in s.checkpoints && s.checkpoints[key] == Step(s, e).checkpoints[key])
    ensures Holds(s, e.w) && Holds(Step(s, e), e.w)
  {
    hide F.Step;
    ActsMeans(s, e.w, e.e);
    if !Writes(e.e) {
      ReadsOnly(View(s, e.w), e.e);
    }
  }

  lemma AnsweredRow<E>(v: F.Sys<E>, req: F.Request)
    requires Track(Status, v, req, false) && v.phase.Answered? && v.phase.c.completed
    ensures v.phase.req == req && RowTracks(Status, v.db, req, v.phase.c, false)
  {
  }

  lemma SoundStep<E>(s: Sys<E>, e: Event<E>)
    requires Inv(s) && Intent(s) && Sound(s) && OnTime(s, e) && DropFree(s, e)
    ensures Sound(Step(s, e))
  {
    var s' := Step(s, e);
    forall user, id | (user, id) in s'.checkpoints && s'.checkpoints[(user, id)].completed
      ensures CarriedOut(Status, s', user, id)
    {
      CarriedKept(s, e, user, id);
    }
    forall w | Holds(s', w) && PastDeciding(s'.attempts[w].phase)
      ensures Track(Status, View(s', w), s'.attempts[w].req, false)
    {
      SoundTracks(s, e, w);
    }
    hide Step, Inv, Intent, Track, OnTime, DropFree, Holds, CarriedOut;
  }

  lemma {:induction false} SoundRun<E>(s: Sys<E>, events: seq<Event<E>>)
    requires Start(s) && AllOnTime(s, events) && NeverDrops(s, events)
    ensures Inv(Run(s, events)) && Intent(Run(s, events)) && Sound(Run(s, events))
  {
    hide Inv, Intent, Step, OnTime, DropFree, Sound;
    if events == [] {
      StartHolds(s);
      StartSound(s);
    } else {
      var before := events[..|events| - 1];
      SoundRun(s, before);
      StepInv(Run(s, before), events[|events| - 1]);
      StepIntent(Run(s, before), events[|events| - 1]);
      SoundStep(Run(s, before), events[|events| - 1]);
    }
  }

  lemma StartSound<E>(s: Sys<E>)
    requires Start(s)
    ensures Sound(s)
  {
  }

  /** Over such runs, without late writes, a completed checkpoint never promises a redaction that did not happen. */
  lemma RedactionIsSound<E>(s: Sys<E>, events: seq<Event<E>>, user: User, id: Id)
    requires Start(s) && AllOnTime(s, events) && NeverDrops(s, events)
    ensures (user, id) in Run(s, events).checkpoints && Run(s, events).checkpoints[(user, id)].completed ==>
              CarriedOut(Status, Run(s, events), user, id)
  {
    hide Inv, Intent, Step, AllOnTime, NeverDrops, CarriedOut, Run;
    SoundRun(s, events);
  }
}
