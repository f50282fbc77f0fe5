/**
 Consolidation attempts of any number of workers on one job, each with its own request, and the lease
 they contend for. An attempt whose lease was taken over goes on, and a renewal is granted to it again
 once the others have given theirs up.
 */
module ConsolidationAttempts {
  import opened Wrappers
  import opened UserLease
  import opened Consolidation

  /** `turn` is the turn at the attempt's own claim. */
  datatype Attempt = Attempt(req: Request, phase: Phase, turn: nat)

  /** `turn` counts how often the lease went to somebody else; no row holds it, it serves to say what happened. */
  datatype System = System(
    memories: map<MemoryId, Memory>, stored: Option<Progress>, archive: Option<string>, summary: Option<string>,
    attempts: map<Owner, Attempt>, lease: Option<Lease>, turn: nat, clock: Time)

  /** Owners are fresh per call. Occupy and Vacate are the lease's other users, other jobs included. */
  datatype Happening =
    | Tick(now: Time)
    | Claim(w: Owner, req: Request)
    | Renews(w: Owner)
    | Act(w: Owner, e: Event)
    | Release(w: Owner)
    | Occupy(owner: Owner)
    | Vacate(owner: Owner)
    | Foreign(id: MemoryId, memory: Memory)
    | OutputForgotten(id: MemoryId)
    | ArchiveForgotten
    | Scrubbed

  /** What an attempt works on: the stores and its own place. */
  function View(s: System, w: Owner): Sys
    requires w in s.attempts
  {
    Sys(s.memories, s.stored, s.archive, s.summary, s.attempts[w].phase)
  }

  function Acted(s: System, w: Owner, v: Sys): System
    requires w in s.attempts
  {
    s.(memories := v.memories, stored := v.stored, archive := v.archive, summary := v.summary,
       attempts := s.attempts[w := s.attempts[w].(phase := v.phase)])
  }

  function Taken(s: System, w: Owner): System {
    s.(lease := Some(Claimed(w, s.clock)), turn := s.turn + 1)
  }

  /** The points at which the code renews. */
  predicate Renewing(phase: Phase) {
    (phase.Working? || phase.Ending?) && !phase.renewed
  }

  /** Somebody else has claimed the lease since the attempt's own claim. */
  predicate Overtaken(s: System, w: Owner) {
    w in s.attempts && s.attempts[w].turn < s.turn
  }

  /** A renewal after others were there takes the lease over from them. */
  function Renewed(s: System, w: Owner): System
    requires w in s.attempts
  {
    if !Admits(s.lease, w, s.clock) then s
    else if Overtaken(s, w) then Taken(s, w)
    else s.(lease := Some(Claimed(w, s.clock)))
  }

  predicate IsJobs(job: JobId, id: MemoryId) {
    id.OutputId? && id.job == job
  }

  function Do(job: JobId, s: System, h: Happening): System {
    match h
    case Tick(now) => if s.clock <= now then s.(clock := now) else s
    case Claim(w, req) =>
      if w in s.attempts || req.job != job then s
      else if Admits(s.lease, w, s.clock) then
        Taken(s, w).(attempts := s.attempts[w := Attempt(req, Idle, s.turn + 1)])
      else s.(attempts := s.attempts[w := Attempt(req, Stopped, s.turn)])
    case Renews(w) =>
      if w in s.attempts && Renewing(s.attempts[w].phase) then
        Acted(Renewed(s, w), w, Step(s.attempts[w].req, View(s, w), Renew(Admits(s.lease, w, s.clock))))
      else s
    case Act(w, e) =>
      if w in s.attempts && !e.Renew? then Acted(s, w, Step(s.attempts[w].req, View(s, w), e)) else s
    case Release(w) =>
      if w in s.attempts && !Active(s.attempts[w].phase) then s.(lease := Released(s.lease, w)) else s
    case Occupy(owner) => if owner !in s.attempts && Admits(s.lease, owner, s.clock) then Taken(s, owner) else s
    case Vacate(owner) => if owner !in s.attempts then s.(lease := Released(s.lease, owner)) else s
    case Foreign(id, memory) => if IsJobs(job, id) then s else s.(memories := s.memories[id := memory])
    case OutputForgotten(id) =>
      if id in s.memories then s.(memories := s.memories[id := s.memories[id].(active := false)]) else s
    case ArchiveForgotten => s.(archive := None)
    case Scrubbed =>
      s.(stored := if s.stored.Some? then Some(s.stored.value.(status := Failed, lastError := Some("source forgotten"))) else None,
         summary := None)
  }

  function RunAll(job: JobId, s: System, happenings: seq<Happening>): System {
    if happenings == [] then s
    else Do(job, RunAll(job, s, happenings[..|happenings| - 1]), happenings[|happenings| - 1])
  }

  /** Before the job exists: no attempt, no checkpoint, and none of its outputs. */
  predicate Start(job: JobId, s: System) {
    s.attempts == map[] && s.stored.None? && forall id :: id in s.memories ==> !IsJobs(job, id)
  }

  // ---- Every run, whatever the attempts ask and whenever they write ----

  /** Every checkpoint and every attempt's own progress lists the first outputs of its own request, all of them stored. */
  predicate Inv(job: JobId, s: System) {
    && (s.stored.Some? ==> s.stored.value.fingerprint.job == job && Sound(s.memories, s.stored.value))
    && forall w :: w in s.attempts ==>
         s.attempts[w].req.job == job && s.attempts[w].turn <= s.turn && PhaseSound(s.attempts[w].req, s.memories, s.attempts[w].phase)
  }

  lemma PhaseLater(req: Request, memories: map<MemoryId, Memory>, memories': map<MemoryId, Memory>, phase: Phase)
    requires memories.Keys <= memories'.Keys && PhaseSound(req, memories, phase)
    ensures PhaseSound(req, memories', phase)
  {
    hide Done;
  }

  lemma ActKept(job: JobId, s: System, w: Owner, e: Event)
    requires Inv(job, s) && w in s.attempts && s.attempts[w].req.job == job
    ensures Inv(job, Acted(s, w, Step(s.attempts[w].req, View(s, w), e)))
  {
    hide Step, PhaseSound, Sound;
    var v := View(s, w);
    var v' := Step(s.attempts[w].req, v, e);
    StepSound(s.attempts[w].req, v, e);
    StepJob(s.attempts[w].req, v, e);
    PhaseJob(s.attempts[w].req, v.memories, v.phase);
    forall u | u in s.attempts
      ensures PhaseSound(s.attempts[u].req, v'.memories, s.attempts[u].phase)
    {
      PhaseLater(s.attempts[u].req, s.memories, v'.memories, s.attempts[u].phase);
    }
  }

  /** A step stores either what was stored or progress of the attempt's own request. */
  lemma StepJob(req: Request, s: Sys, e: Event)
    ensures Step(req, s, e).stored == s.stored || (Active(s.phase) && Step(req, s, e).stored.Some? && Step(req, s, e).stored.value.fingerprint == s.phase.p.fingerprint)
  {
    hide Ingestible, Stored;
  }

  lemma PhaseJob(req: Request, memories: map<MemoryId, Memory>, phase: Phase)
    requires PhaseSound(req, memories, phase)
    ensures Active(phase) ==> phase.p.fingerprint == req
  {
  }

  lemma LeaseKept(job: JobId, s: System, h: Happening)
    requires Inv(job, s) && !h.Act? && !h.Renews?
    ensures Inv(job, Do(job, s, h))
  {
    hide PhaseSound, Sound, Step, Renewed;
    var s' := Do(job, s, h);
    assert s.memories.Keys <= s'.memories.Keys;
    forall u | u in s'.attempts
      ensures s'.attempts[u].req.job == job && s'.attempts[u].turn <= s'.turn && PhaseSound(s'.attempts[u].req, s'.memories, s'.attempts[u].phase)
    {
      if u in s.attempts {
        PhaseLater(s.attempts[u].req, s.memories, s'.memories, s.attempts[u].phase);
      } else {
        FreshPhase(s'.attempts[u].req, s'.memories, s'.attempts[u].phase);
      }
    }
    if s.stored.Some? {
      SoundLater(s.memories, s'.memories, s.stored.value);
    }
  }

  lemma SoundLater(memories: map<MemoryId, Memory>, memories': map<MemoryId, Memory>, p: Progress)
    requires memories.Keys <= memories'.Keys && Sound(memories, p)
    ensures Sound(memories', p) && Sound(memories', p.(status := Failed, lastError := Some("source forgotten")))
  {
  }

  lemma FreshPhase(req: Request, memories: map<MemoryId, Memory>, phase: Phase)
    requires phase.Idle? || phase.Stopped?
    ensures PhaseSound(req, memories, phase)
  {
  }

  lemma RenewedStores(s: System, w: Owner)
    requires w in s.attempts
    ensures var s' := Renewed(s, w);
            && s'.(lease := s.lease, turn := s.turn) == s && s.turn <= s'.turn
            && View(s', w) == View(s, w)
  {
  }

  lemma InvTurn(job: JobId, s: System, s': System)
    requires Inv(job, s) && s'.(lease := s.lease, turn := s.turn) == s && s.turn <= s'.turn
    ensures Inv(job, s')
  {
    hide PhaseSound, Sound;
  }

  lemma DoKept(job: JobId, s: System, h: Happening)
    requires Inv(job, s)
    ensures Inv(job, Do(job, s, h))
  {
    hide Inv, Step, Renewed, Renewing;
    if h.Act? {
      if h.w in s.attempts && !h.e.Renew? {
        Jobs(job, s, h.w);
        ActKept(job, s, h.w, h.e);
      }
    } else if h.Renews? {
      if h.w in s.attempts && Renewing(s.attempts[h.w].phase) {
        Jobs(job, s, h.w);
        RenewedStores(s, h.w);
        InvTurn(job, s, Renewed(s, h.w));
        ActKept(job, Renewed(s, h.w), h.w, Renew(Admits(s.lease, h.w, s.clock)));
      }
    } else {
      LeaseKept(job, s, h);
    }
  }

  lemma Jobs(job: JobId, s: System, w: Owner)
    requires Inv(job, s) && w in s.attempts
    ensures s.attempts[w].req.job == job
  {
    hide PhaseSound, Sound;
  }

  lemma StartInv(job: JobId, s: System)
    requires Start(job, s)
    ensures Inv(job, s)
  {
  }

  lemma {:induction false} InvAlways(job: JobId, s: System, happenings: seq<Happening>)
    requires Inv(job, s)
    ensures Inv(job, RunAll(job, s, happenings))
  {
    hide Inv, Do;
    if happenings != [] {
      InvAlways(job, s, happenings[..|happenings| - 1]);
      DoKept(job, RunAll(job, s, happenings[..|happenings| - 1]), happenings[|happenings| - 1]);
    }
  }
}
