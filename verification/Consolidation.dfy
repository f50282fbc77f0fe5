/**
 Resumable consolidation as one attempt runs it: a job checkpoints its progress after every durable
 effect, and output ids are fixed by the job, the candidate's index and its content.

 Each read, renewal and durable write is one step; an attempt may stop, or meet an error, between any
 two. Ids and fingerprints keep their pre-images instead of hashes. Attempts of several workers, and
 the lease they contend for, are in ConsolidationAttempts.
 */
module Consolidation {
  import opened Wrappers

  type JobId = string
  type Stamp = nat

  datatype MemoryId = OutputId(job: JobId, index: nat, content: string) | Other(name: string)

  /** A host candidate after the lane, session and policy were put on it. */
  datatype Candidate = Candidate(content: string, fields: string, storable: bool)

  datatype Memory = Memory(content: string, fields: string, active: bool, writtenAt: Stamp)

  /** The request and the session's messages, which together are the fingerprint. */
  datatype Request = Request(job: JobId, transcript: string, candidates: seq<Candidate>, summary: Option<string>, deep: bool)

  datatype Accepted = Accepted(record: MemoryId, receipt: Stamp)

  datatype Status = Running | RetryPending | Completed | Failed

  datatype Progress = Progress(
    fingerprint: Request, status: Status, attempts: nat, accepted: seq<Accepted>, archived: bool, lastError: Option<string>)

  const MAX_ATTEMPTS: nat := 0xFFFF_FFFF

  /** `renewed` says that the lease was renewed for the write to come. */
  datatype Phase =
    | Idle
    | Stopped
    | Opening(p: Progress)
    | Working(p: Progress, renewed: bool)
    | Reporting(p: Progress)
    | Ending(p: Progress, error: Option<string>, renewed: bool)
    | Answered(p: Progress)

  datatype Sys = Sys(
    memories: map<MemoryId, Memory>, stored: Option<Progress>, archive: Option<string>, summary: Option<string>, phase: Phase)

  datatype Event =
    | Begin
    | Open
    | Renew(granted: bool)
    | Archive(acknowledged: bool)
    | Ingest(now: Stamp, reported: bool)
    | Report
    | Break(error: string)
    | Summarize
    | Finish
    | Crash

  function Output(req: Request, i: nat): MemoryId
    requires i < |req.candidates|
  {
    OutputId(req.job, i, req.candidates[i].content)
  }

  predicate IsOutput(req: Request, id: MemoryId) {
    exists i :: 0 <= i < |req.candidates| && id == Output(req, i)
  }

  function Stored(c: Candidate, now: Stamp): Memory {
    Memory(c.content, c.fields, true, now)
  }

  function NewJob(req: Request): Progress {
    Progress(req, Running, 0, [], false, None)
  }

  function Resumed(req: Request, stored: Option<Progress>): Progress {
    var p := if stored.Some? then stored.value else NewJob(req);
    p.(attempts := if p.attempts < MAX_ATTEMPTS then p.attempts + 1 else p.attempts, status := Running)
  }

  /** The candidate may be written: it passes ingestion, and its output was not forgotten meanwhile. */
  predicate Ingestible(req: Request, memories: map<MemoryId, Memory>, i: nat)
    requires i < |req.candidates|
  {
    && req.candidates[i].storable
    && (Output(req, i) in memories ==> memories[Output(req, i)].active)
  }

  predicate NeedsArchive(req: Request, p: Progress) {
    req.deep && !p.archived
  }

  /** The work is done but for the summary. */
  predicate AllAccepted(req: Request, p: Progress) {
    !NeedsArchive(req, p) && |p.accepted| >= |req.candidates|
  }

  const LEASE_LOST := "worker lost its durable lifecycle lease"

  function Ended(p: Progress, error: Option<string>): Progress {
    if error.None? then p.(status := Completed, lastError := None) else p.(status := RetryPending, lastError := error)
  }

  function Step(req: Request, s: Sys, e: Event): Sys {
    match e
    case Begin =>
      if !s.phase.Idle? then s
      else if s.stored.Some? && s.stored.value.fingerprint != req then s.(phase := Stopped)
      else if s.stored.Some? && s.stored.value.status.Completed? then s.(phase := Answered(s.stored.value))
      else s.(phase := Opening(Resumed(req, s.stored)))
    case Open =>
      if s.phase.Opening? then s.(stored := Some(s.phase.p), phase := Working(s.phase.p, false)) else s
    case Renew(granted) =>
      if s.phase.Working? && !s.phase.renewed then
        s.(phase := if granted then Working(s.phase.p, true) else Ending(s.phase.p, Some(LEASE_LOST), false))
      else if s.phase.Ending? && !s.phase.renewed then
        s.(phase := if granted then Ending(s.phase.p, s.phase.error, true) else Stopped)
      else s
    case Archive(acknowledged) =>
      if s.phase.Working? && s.phase.renewed && NeedsArchive(req, s.phase.p) then
        s.(archive := Some(req.transcript),
           phase := if acknowledged then Reporting(s.phase.p.(archived := true)) else Ending(s.phase.p, Some("archive was not acknowledged"), false))
      else s
    case Ingest(now, reported) =>
      if s.phase.Working? && s.phase.renewed && !NeedsArchive(req, s.phase.p) && |s.phase.p.accepted| < |req.candidates| then
        var p, i := s.phase.p, |s.phase.p.accepted|;
        if !Ingestible(req, s.memories, i) then s.(phase := Ending(p, Some("host candidate rejected"), false))
        else
          s.(memories := s.memories[Output(req, i) := Stored(req.candidates[i], now)],
             phase := if reported then Reporting(p.(accepted := p.accepted + [Accepted(Output(req, i), now)]))
                      else Ending(p, Some("ingestion failed"), false))
      else s
    case Report =>
      if s.phase.Reporting? then s.(stored := Some(s.phase.p), phase := Working(s.phase.p, false)) else s
    case Break(error) =>
      if s.phase.Working? || s.phase.Reporting? then s.(phase := Ending(s.phase.p, Some(error), false)) else s
    case Summarize =>
      if s.phase.Working? && AllAccepted(req, s.phase.p) && (s.phase.renewed || req.summary.None?) then
        s.(summary := if req.summary.Some? then req.summary else s.summary, phase := Ending(s.phase.p, None, false))
      else s
    case Finish =>
      if s.phase.Ending? && s.phase.renewed then
        var p := Ended(s.phase.p, s.phase.error);
        s.(stored := Some(p), phase := if s.phase.error.None? then Answered(p) else Stopped)
      else s
    case Crash => s.(phase := Stopped)
  }

  /** The step writes to a store. */
  predicate Writes(req: Request, s: Sys, e: Event) {
    match e
    case Open => s.phase.Opening?
    case Archive(_) => s.phase.Working? && s.phase.renewed && NeedsArchive(req, s.phase.p)
    case Ingest(_, _) =>
      && s.phase.Working? && s.phase.renewed && !NeedsArchive(req, s.phase.p)
      && |s.phase.p.accepted| < |req.candidates| && Ingestible(req, s.memories, |s.phase.p.accepted|)
    case Report => s.phase.Reporting?
    case Summarize => s.phase.Working? && s.phase.renewed && AllAccepted(req, s.phase.p) && req.summary.Some?
    case Finish => s.phase.Ending? && s.phase.renewed
    case _ => false
  }

  lemma OnlyWrites(req: Request, s: Sys, e: Event)
    requires !Writes(req, s, e)
    ensures Step(req, s, e) == s.(phase := Step(req, s, e).phase)
  {
    hide Ingestible;
  }

  function Run(req: Request, s: Sys, events: seq<Event>): Sys {
    if events == [] then s
    else Step(req, Run(req, s, events[..|events| - 1]), events[|events| - 1])
  }

  /**
   An attempt stops at a checkpoint of other inputs and answers a completed one; otherwise it opens the job,
   with the progress made so far and one more attempt counted.
   */
  lemma BeginMeans(req: Request, s: Sys)
    requires s.phase.Idle?
    ensures var s' := Step(req, s, Begin);
            && s'.(phase := s.phase) == s
            && (s.stored.None? ==> s'.phase == Opening(Progress(req, Running, 1, [], false, None)))
            && (s.stored.Some? && s.stored.value.fingerprint != req ==> s'.phase == Stopped)
            && (s.stored.Some? && s.stored.value.fingerprint == req ==>
                  if s.stored.value.status == Completed then s'.phase == Answered(s.stored.value)
                  else
                    && s'.phase.Opening? && s'.phase.p.status == Running && s'.phase.p.accepted == s.stored.value.accepted
                    && s'.phase.p.archived == s.stored.value.archived && s'.phase.p.fingerprint == req
                    && (s.stored.value.attempts < 0xFFFF_FFFF ==> s'.phase.p.attempts == s.stored.value.attempts + 1)
                    && (s.stored.value.attempts >= 0xFFFF_FFFF ==> s'.phase.p.attempts == s.stored.value.attempts))
  {
  }

  /** The last save records completion without an error, or the error for a retry, and keeps the progress. */
  lemma FinishMeans(req: Request, s: Sys)
    requires s.phase.Ending? && s.phase.renewed
    ensures var s' := Step(req, s, Finish);
            && s'.stored.Some? && s'.memories == s.memories && s'.archive == s.archive && s'.summary == s.summary
            && s'.stored.value.accepted == s.phase.p.accepted && s'.stored.value.archived == s.phase.p.archived
            && s'.stored.value.fingerprint == s.phase.p.fingerprint && s'.stored.value.attempts == s.phase.p.attempts
            && (s.phase.error.None? ==> s'.stored.value.status == Completed && s'.stored.value.lastError.None? && s'.phase == Answered(s'.stored.value))
            && (s.phase.error.Some? ==> s'.stored.value.status == RetryPending && s'.stored.value.lastError == s.phase.error && s'.phase == Stopped)
  {
  }

  // ---- What a progress record stands for ----

  /** The progress lists the first outputs of its own request in order, and each of them is stored. */
  predicate Backed(memories: map<MemoryId, Memory>, p: Progress) {
    var req := p.fingerprint;
    && |p.accepted| <= |req.candidates|
    && forall i :: 0 <= i < |p.accepted| ==> p.accepted[i].record == Output(req, i) && Output(req, i) in memories
  }

  /** All of the request's outputs are listed, and its transcript was archived if it asked for that. */
  predicate Done(p: Progress) {
    |p.accepted| == |p.fingerprint.candidates| && (p.fingerprint.deep ==> p.archived)
  }

  /** A stored checkpoint. */
  predicate Sound(memories: map<MemoryId, Memory>, p: Progress) {
    Backed(memories, p) && (p.status.Completed? ==> Done(p))
  }

  predicate Active(phase: Phase) {
    phase.Opening? || phase.Working? || phase.Reporting? || phase.Ending?
  }

  /** What the attempt's own progress is worth. */
  predicate PhaseSound(req: Request, memories: map<MemoryId, Memory>, phase: Phase) {
    && (Active(phase) ==> phase.p.fingerprint == req && phase.p.status.Running? && Backed(memories, phase.p))
    && (phase.Ending? && phase.error.None? ==> Done(phase.p))
    && (phase.Answered? ==> phase.p.fingerprint == req && phase.p.status.Completed? && Sound(memories, phase.p))
  }

  lemma BackedLater(memories: map<MemoryId, Memory>, memories': map<MemoryId, Memory>, p: Progress)
    requires memories.Keys <= memories'.Keys && Backed(memories, p)
    ensures Backed(memories', p)
  {
  }

  /** An attempt's step removes no memory, and keeps its checkpoint and its own progress sound. */
  lemma StepSound(req: Request, s: Sys, e: Event)
    requires s.stored.Some? ==> Sound(s.memories, s.stored.value)
    requires PhaseSound(req, s.memories, s.phase)
    ensures var s' := Step(req, s, e);
            && s.memories.Keys <= s'.memories.Keys
            && (s'.stored.Some? ==> Sound(s'.memories, s'.stored.value))
            && PhaseSound(req, s'.memories, s'.phase)
  {
    match e {
      case Ingest(_, _) =>
        hide Ingestible, Stored, Done, Resumed;
      case Begin =>
      case _ =>
        hide Resumed, Ingestible, Stored;
    }
  }
}
