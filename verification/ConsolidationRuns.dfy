/**
 Whole runs of a consolidation job: attempts that crash, fail and overlap in any way, one of which
 finishes, against a single attempt that meets no trouble.
 */
module ConsolidationRuns {
  import opened Wrappers
  import opened UserLease
  import opened Consolidation
  import opened ConsolidationAttempts

  predicate Forgets(h: Happening) {
    h.OutputForgotten? || h.ArchiveForgotten? || h.Scrubbed?
  }

  predicate NothingForgotten(happenings: seq<Happening>) {
    forall h :: h in happenings ==> !Forgets(h)
  }

  /** The happening is a write of an attempt. */
  predicate Writing(s: System, h: Happening) {
    h.Act? && h.w in s.attempts && Writes(s.attempts[h.w].req, View(s, h.w), h.e)
  }

  /** Of all attempts, only those that ask this request write. */
  predicate OnlyAsked(job: JobId, req: Request, s: System, happenings: seq<Happening>) {
    happenings != [] ==>
      var before, h := RunAll(job, s, happenings[..|happenings| - 1]), happenings[|happenings| - 1];
      OnlyAsked(job, req, s, happenings[..|happenings| - 1]) && (Writing(before, h) ==> before.attempts[h.w].req == req)
  }

  // ---- What a finished job leaves behind ----

  /** Timestamps erased. */
  datatype Outcome = Outcome(outputs: map<MemoryId, Memory>, ids: seq<MemoryId>, archive: Option<string>, summary: Option<string>)

  function OutcomeOf(req: Request, v: Sys): Outcome
    requires v.phase.Answered?
  {
    Outcome(map id | id in v.memories && IsOutput(req, id) :: v.memories[id].(writtenAt := 0),
            seq(|v.phase.p.accepted|, i requires 0 <= i < |v.phase.p.accepted| => v.phase.p.accepted[i].record),
            v.archive, v.summary)
  }

  function OutputIds(req: Request): seq<MemoryId> {
    seq(|req.candidates|, i requires 0 <= i < |req.candidates| => Output(req, i))
  }

  /** One memory per candidate under its index-derived id; the archive and summary the request asked for, or what was there. */
  function Expected(req: Request, archive: Option<string>, summary: Option<string>): Outcome {
    Outcome(map i | 0 <= i < |req.candidates| :: Output(req, i) := Stored(req.candidates[i], 0), OutputIds(req),
            if req.deep then Some(req.transcript) else archive,
            if req.summary.Some? then req.summary else summary)
  }

  // ---- The invariant of runs in which one request writes ----

  predicate Faithful(req: Request, memories: map<MemoryId, Memory>) {
    forall i :: 0 <= i < |req.candidates| && Output(req, i) in memories ==>
      req.candidates[i].storable && memories[Output(req, i)] == Stored(req.candidates[i], memories[Output(req, i)].writtenAt)
  }

  predicate ArchiveKept(req: Request, archive: Option<string>, p: Progress) {
    p.archived ==> archive == Some(req.transcript)
  }

  predicate SummaryKept(req: Request, summary: Option<string>) {
    req.summary.Some? ==> summary == req.summary
  }

  predicate StoredKept(req: Request, v: Sys) {
    v.stored.Some? ==>
      && v.stored.value.fingerprint == req && ArchiveKept(req, v.archive, v.stored.value)
      && (v.stored.value.status.Completed? ==> SummaryKept(req, v.summary))
  }

  predicate PhaseKept(req: Request, v: Sys) {
    && (Active(v.phase) || v.phase.Answered? ==> ArchiveKept(req, v.archive, v.phase.p))
    && ((v.phase.Ending? && v.phase.error.None?) || v.phase.Answered? ==> SummaryKept(req, v.summary))
  }

  /** What is not asked for stays as it was, and what is there already stays. */
  predicate Moves(req: Request, v: Sys, v': Sys) {
    && (if req.deep then v.archive == Some(req.transcript) ==> v'.archive == v.archive else v'.archive == v.archive)
    && (if req.summary.Some? then SummaryKept(req, v.summary) ==> SummaryKept(req, v'.summary) else v'.summary == v.summary)
  }

  lemma StepKept(req: Request, v: Sys, e: Event)
    requires Faithful(req, v.memories) && StoredKept(req, v) && PhaseKept(req, v) && PhaseSound(req, v.memories, v.phase)
    ensures var v' := Step(req, v, e); Faithful(req, v'.memories) && StoredKept(req, v') && PhaseKept(req, v') && Moves(req, v, v')
  {
  }

  predicate Kept(req: Request, start: System, s: System) {
    && Faithful(req, s.memories) && StoredKept(req, Sys(s.memories, s.stored, s.archive, s.summary, Idle))
    && (!req.deep ==> s.archive == start.archive) && (req.summary.None? ==> s.summary == start.summary)
    && forall w :: w in s.attempts && s.attempts[w].req == req ==> PhaseKept(req, View(s, w))
  }

  lemma MovedPhase(req: Request, v: Sys, v': Sys, phase: Phase)
    requires Moves(req, v, v') && PhaseKept(req, v.(phase := phase))
    ensures PhaseKept(req, v'.(phase := phase))
  {
  }

  lemma ActKept(job: JobId, req: Request, start: System, s: System, w: Owner, e: Event)
    requires Inv(job, s) && Kept(req, start, s) && w in s.attempts && s.attempts[w].req == req
    ensures Kept(req, start, Acted(s, w, Step(req, View(s, w), e)))
  {
    var v := View(s, w);
    var v' := Step(req, v, e);
    StepKept(req, v, e);
    hide Step, Faithful, PhaseSound, Sound, Inv;
    var s' := Acted(s, w, v');
    forall u | u in s'.attempts && s'.attempts[u].req == req
      ensures PhaseKept(req, View(s', u))
    {
      if u != w {
        MovedPhase(req, v, v', s.attempts[u].phase);
        assert View(s, u) == v.(phase := s.attempts[u].phase) && View(s', u) == v'.(phase := s.attempts[u].phase);
      }
    }
    hide PhaseKept;
  }

  /** An attempt that does not write changes nothing but its own place. */
  lemma QuietKept(req: Request, start: System, s: System, s': System)
    requires Kept(req, start, s)
    requires s'.memories == s.memories && s'.stored == s.stored && s'.archive == s.archive && s'.summary == s.summary
    requires forall u :: u in s'.attempts && s'.attempts[u].req == req ==>
               s'.attempts[u].phase.Idle? || s'.attempts[u].phase.Stopped? || (u in s.attempts && s.attempts[u].req == req && s'.attempts[u].phase == s.attempts[u].phase)
    ensures Kept(req, start, s')
  {
    hide Faithful;
    forall u | u in s'.attempts && s'.attempts[u].req == req
      ensures PhaseKept(req, View(s', u))
    {
      if u in s.attempts && s'.attempts[u].phase == s.attempts[u].phase && s.attempts[u].req == req {
        assert View(s', u) == View(s, u);
      }
    }
    hide PhaseKept;
  }

  lemma ForeignKept(job: JobId, req: Request, start: System, s: System, id: MemoryId, memory: Memory)
    requires Kept(req, start, s) && req.job == job
    ensures Kept(req, start, Do(job, s, Foreign(id, memory)))
  {
    var s' := Do(job, s, Foreign(id, memory));
    forall u | u in s'.attempts && s'.attempts[u].req == req
      ensures PhaseKept(req, View(s', u))
    {
      assert PhaseKept(req, View(s, u));
    }
  }

  lemma DoKeeps(job: JobId, req: Request, start: System, s: System, h: Happening)
    requires Inv(job, s) && Kept(req, start, s) && req.job == job && !Forgets(h)
    requires Writing(s, h) ==> s.attempts[h.w].req == req
    ensures Kept(req, start, Do(job, s, h))
  {
    hide Inv, Kept, Step, Renewed, Renewing, Writes, Admits;
    if h.Act? {
      if h.w in s.attempts && !h.e.Renew? {
        if s.attempts[h.w].req == req {
          ActKept(job, req, start, s, h.w, h.e);
        } else {
          OnlyWrites(s.attempts[h.w].req, View(s, h.w), h.e);
          QuietKept(req, start, s, Do(job, s, h));
        }
      }
    } else if h.Renews? {
      if h.w in s.attempts && Renewing(s.attempts[h.w].phase) {
        RenewKept(job, req, start, s, h.w);
      }
    } else if h.Foreign? {
      ForeignKept(job, req, start, s, h.id, h.memory);
    } else {
      QuietKept(req, start, s, Do(job, s, h));
    }
  }

  lemma RenewKept(job: JobId, req: Request, start: System, s: System, w: Owner)
    requires Inv(job, s) && Kept(req, start, s) && w in s.attempts && Renewing(s.attempts[w].phase)
    ensures Kept(req, start, Do(job, s, Renews(w)))
  {
    hide Inv, Kept, Step, Renewed, Renewing, Writes, Admits;
    RenewedStores(s, w);
    InvTurn(job, s, Renewed(s, w));
    QuietKept(req, start, s, Renewed(s, w));
    if s.attempts[w].req == req {
      ActKept(job, req, start, Renewed(s, w), w, Renew(Admits(s.lease, w, s.clock)));
    } else {
      NotAWrite(s.attempts[w].req, View(s, w), Admits(s.lease, w, s.clock));
      OnlyWrites(s.attempts[w].req, View(s, w), Renew(Admits(s.lease, w, s.clock)));
      QuietKept(req, start, s, Do(job, s, Renews(w)));
    }
  }

  lemma NotAWrite(req: Request, v: Sys, granted: bool)
    ensures !Writes(req, v, Renew(granted))
  {
  }

  lemma {:induction false} KeptAlways(job: JobId, req: Request, start: System, happenings: seq<Happening>)
    requires Start(job, start) && req.job == job && NothingForgotten(happenings) && OnlyAsked(job, req, start, happenings)
    ensures Kept(req, start, RunAll(job, start, happenings)) && Inv(job, RunAll(job, start, happenings))
  {
    StartInv(job, start);
    InvAlways(job, start, happenings);
    if happenings == [] {
      StartKept(job, req, start);
    } else {
      var before := happenings[..|happenings| - 1];
      assert happenings[|happenings| - 1] in happenings;
      KeptAlways(job, req, start, before);
      DoKeeps(job, req, start, RunAll(job, start, before), happenings[|happenings| - 1]);
    }
    hide Do, Inv, Kept, Writing, Start;
  }

  lemma StartKept(job: JobId, req: Request, start: System)
    requires Start(job, start) && req.job == job
    ensures Kept(req, start, start)
  {
    assert forall i :: 0 <= i < |req.candidates| ==> IsJobs(job, Output(req, i));
  }

  // ---- Finished attempts ----

  /** What an attempt of the request may count on, among others or alone. */
  predicate Standing(req: Request, start: System, v: Sys) {
    && Faithful(req, v.memories) && StoredKept(req, v) && PhaseKept(req, v) && PhaseSound(req, v.memories, v.phase)
    && (v.stored.Some? ==> Sound(v.memories, v.stored.value))
    && (!req.deep ==> v.archive == start.archive) && (req.summary.None? ==> v.summary == start.summary)
  }

  lemma StandingAmong(job: JobId, req: Request, start: System, s: System, w: Owner)
    requires Inv(job, s) && Kept(req, start, s) && w in s.attempts && s.attempts[w].req == req
    ensures Standing(req, start, View(s, w))
  {
    hide Faithful, PhaseSound, Sound;
    assert PhaseKept(req, View(s, w));
    hide PhaseKept;
  }

  lemma FinishedOutput(req: Request, start: System, v: Sys, i: nat)
    requires Standing(req, start, v) && v.phase.Answered? && i < |req.candidates|
    ensures Output(req, i) in v.memories && req.candidates[i].storable
    ensures v.memories[Output(req, i)].(writtenAt := 0) == Stored(req.candidates[i], 0)
  {
    assert v.phase.p.accepted[i].record == Output(req, i);
  }

  lemma FinishedMemories(req: Request, start: System, v: Sys)
    requires Standing(req, start, v) && v.phase.Answered?
    ensures OutcomeOf(req, v).outputs == Expected(req, start.archive, start.summary).outputs
  {
    hide Standing;
    var got, want := OutcomeOf(req, v).outputs, Expected(req, start.archive, start.summary).outputs;
    forall i | 0 <= i < |req.candidates|
      ensures Output(req, i) in got && got[Output(req, i)] == Stored(req.candidates[i], 0)
    {
      FinishedOutput(req, start, v, i);
      assert IsOutput(req, Output(req, i));
    }
    assert forall id :: id in got ==> IsOutput(req, id);
  }

  lemma FinishedRest(req: Request, start: System, v: Sys)
    requires Standing(req, start, v) && v.phase.Answered?
    ensures OutcomeOf(req, v).ids == OutputIds(req)
    ensures v.archive == Expected(req, start.archive, start.summary).archive && v.summary == Expected(req, start.archive, start.summary).summary
  {
    hide Faithful;
  }

  /** A finished attempt leaves the expected outcome, and every candidate passed ingestion. */
  lemma StandingOutcome(req: Request, start: System, v: Sys)
    requires Standing(req, start, v) && v.phase.Answered?
    ensures OutcomeOf(req, v) == Expected(req, start.archive, start.summary) && Storable(req)
  {
    FinishedMemories(req, start, v);
    FinishedRest(req, start, v);
    hide Standing;
    forall i | 0 <= i < |req.candidates|
      ensures req.candidates[i].storable
    {
      FinishedOutput(req, start, v, i);
    }
  }

  predicate Storable(req: Request) {
    forall i :: 0 <= i < |req.candidates| ==> req.candidates[i].storable
  }

  // ---- No other outputs ----

  predicate OnlyOutputs(req: Request, memories: map<MemoryId, Memory>) {
    forall id :: id in memories && IsJobs(req.job, id) ==> IsOutput(req, id)
  }

  lemma StepOnlyOutputs(req: Request, v: Sys, e: Event)
    requires OnlyOutputs(req, v.memories)
    ensures OnlyOutputs(req, Step(req, v, e).memories)
  {
    hide Stored, Ingestible;
  }

  lemma DoOnlyOutputs(job: JobId, req: Request, s: System, h: Happening)
    requires req.job == job && OnlyOutputs(req, s.memories) && (Writing(s, h) ==> s.attempts[h.w].req == req)
    ensures OnlyOutputs(req, Do(job, s, h).memories)
  {
    hide Step, Writes, Renewed, Renewing, Admits, IsOutput;
    if h.Act? && h.w in s.attempts && !h.e.Renew? {
      if s.attempts[h.w].req == req {
        StepOnlyOutputs(req, View(s, h.w), h.e);
      } else {
        OnlyWrites(s.attempts[h.w].req, View(s, h.w), h.e);
      }
    } else if h.Renews? && h.w in s.attempts {
      RenewedStores(s, h.w);
      NotAWrite(s.attempts[h.w].req, View(s, h.w), Admits(s.lease, h.w, s.clock));
      OnlyWrites(s.attempts[h.w].req, View(s, h.w), Renew(Admits(s.lease, h.w, s.clock)));
    }
  }

  lemma {:induction false} OnlyOutputsAlways(job: JobId, req: Request, start: System, happenings: seq<Happening>)
    requires Start(job, start) && req.job == job && OnlyAsked(job, req, start, happenings)
    ensures OnlyOutputs(req, RunAll(job, start, happenings).memories)
  {
    hide Do, Writing, IsOutput;
    if happenings != [] {
      OnlyOutputsAlways(job, req, start, happenings[..|happenings| - 1]);
      DoOnlyOutputs(job, req, RunAll(job, start, happenings[..|happenings| - 1]), happenings[|happenings| - 1]);
    }
  }

  /** The candidate's memory is there under its id, active and with all that the candidate says. */
  predicate Wrote(memories: map<MemoryId, Memory>, req: Request, i: nat)
    requires i < |req.candidates|
  {
    var id := OutputId(req.job, i, req.candidates[i].content);
    && id in memories && memories[id].active
    && memories[id].content == req.candidates[i].content && memories[id].fields == req.candidates[i].fields
  }

  /** The memories, the answer, the archive and the summary that a request asks for. */
  predicate Answers(req: Request, start: System, end: System, p: Progress) {
    && p.status.Completed? && p.fingerprint == req && |p.accepted| == |req.candidates|
    && (forall i :: 0 <= i < |req.candidates| ==>
          Wrote(end.memories, req, i) && p.accepted[i].record == OutputId(req.job, i, req.candidates[i].content))
    && (forall id :: id in end.memories && id.OutputId? && id.job == req.job ==>
          0 <= id.index < |req.candidates| && id.content == req.candidates[id.index].content)
    && (if req.deep then end.archive == Some(req.transcript) else end.archive == start.archive)
    && (if req.summary.Some? then end.summary == req.summary else end.summary == start.summary)
  }

  lemma StandingAnswers(req: Request, start: System, v: Sys)
    requires Standing(req, start, v) && v.phase.Answered?
    ensures v.phase.p.status.Completed? && v.phase.p.fingerprint == req && |v.phase.p.accepted| == |req.candidates|
    ensures forall i :: 0 <= i < |req.candidates| ==> Wrote(v.memories, req, i) && v.phase.p.accepted[i].record == OutputId(req.job, i, req.candidates[i].content)
    ensures if req.deep then v.archive == Some(req.transcript) else v.archive == start.archive
    ensures if req.summary.Some? then v.summary == req.summary else v.summary == start.summary
  {
    forall i | 0 <= i < |req.candidates|
      ensures Wrote(v.memories, req, i) && v.phase.p.accepted[i].record == OutputId(req.job, i, req.candidates[i].content)
    {
      FinishedOutput(req, start, v, i);
    }
  }

  /**
   Any number of attempts that crash, fail, overlap and write at any time: if only attempts of one request
   write, whichever finishes finds one active memory per candidate with the candidate's own content and
   fields, no other output of the job, and the archive and summary asked for, then and ever after.
   */
  lemma FinishedOutcome(job: JobId, req: Request, start: System, happenings: seq<Happening>, w: Owner)
    requires Start(job, start) && req.job == job && NothingForgotten(happenings) && OnlyAsked(job, req, start, happenings)
    requires var end := RunAll(job, start, happenings); w in end.attempts && end.attempts[w].req == req && end.attempts[w].phase.Answered?
    ensures var end := RunAll(job, start, happenings);
            Answers(req, start, end, end.attempts[w].phase.p) && OutcomeOf(req, View(end, w)) == Expected(req, start.archive, start.summary) && Storable(req)
  {
    hide Kept, Inv, Standing, Wrote;
    var end := RunAll(job, start, happenings);
    KeptAlways(job, req, start, happenings);
    StandingAmong(job, req, start, end, w);
    StandingOutcome(req, start, View(end, w));
    StandingAnswers(req, start, View(end, w));
    OnlyOutputsAlways(job, req, start, happenings);
    hide RunAll, OutcomeOf, Expected;
  }

  // ---- The run of one attempt that meets no trouble ----

  function IngestAll(n: nat): seq<Event> {
    if n == 0 then [] else IngestAll(n - 1) + [Renew(true), Ingest(0, true), Report]
  }

  function CrashFree(req: Request): seq<Event> {
    [Begin, Open] + (if req.deep then [Renew(true), Archive(true), Report] else []) + IngestAll(|req.candidates|)
    + (if req.summary.Some? then [Renew(true)] else []) + [Summarize, Renew(true), Finish]
  }

  /** The attempt by itself over the stores it found. */
  function Single(req: Request, start: System): Sys {
    Run(req, Sys(start.memories, start.stored, start.archive, start.summary, Idle), CrashFree(req))
  }

  lemma {:induction false} RunAppend(req: Request, s: Sys, one: seq<Event>, two: seq<Event>)
    ensures Run(req, s, one + two) == Run(req, Run(req, s, one), two)
  {
    hide Step;
    if two == [] {
      assert one + two == one;
    } else {
      RunAppend(req, s, one, two[..|two| - 1]);
      assert (one + two)[..|one + two| - 1] == one + two[..|two| - 1];
    }
  }

  lemma RunTwo(req: Request, s: Sys, a: Event, b: Event)
    ensures Run(req, s, [a, b]) == Step(req, Step(req, s, a), b)
  {
    hide Step;
    assert [a, b][..1] == [a] && [a][..0] == [];
    assert Run(req, s, [a]) == Step(req, Run(req, s, []), a);
  }

  lemma RunThree(req: Request, s: Sys, a: Event, b: Event, c: Event)
    ensures Run(req, s, [a, b, c]) == Step(req, Step(req, Step(req, s, a), b), c)
  {
    hide Step;
    assert [a, b, c][..2] == [a, b];
    RunTwo(req, s, a, b);
  }

  lemma {:induction false} StandingAlone(req: Request, start: System, v: Sys, events: seq<Event>)
    requires Standing(req, start, v)
    ensures Standing(req, start, Run(req, v, events))
  {
    if events != [] {
      var before, e := Run(req, v, events[..|events| - 1]), events[|events| - 1];
      StandingAlone(req, start, v, events[..|events| - 1]);
      StepKept(req, before, e);
      StepSound(req, before, e);
    }
    hide Step, Faithful, PhaseSound, Sound, PhaseKept, StoredKept;
  }

  lemma {:induction false} IngestAllRuns(req: Request, s: Sys, n: nat)
    requires forall i :: 0 <= i < |req.candidates| ==> req.candidates[i].storable && Output(req, i) !in s.memories
    requires s.phase.Working? && !s.phase.renewed && !NeedsArchive(req, s.phase.p) && s.phase.p.accepted == [] && n <= |req.candidates|
    ensures var end := Run(req, s, IngestAll(n));
            && end.phase.Working? && !end.phase.renewed && |end.phase.p.accepted| == n && end.phase.p.archived == s.phase.p.archived
            && forall i :: n <= i < |req.candidates| ==> Output(req, i) !in end.memories
  {
    if n > 0 {
      IngestAllRuns(req, s, n - 1);
      RunAppend(req, s, IngestAll(n - 1), [Renew(true), Ingest(0, true), Report]);
      RunThree(req, Run(req, s, IngestAll(n - 1)), Renew(true), Ingest(0, true), Report);
    }
  }

  lemma SingleReady(req: Request, v: Sys)
    requires v.phase.Idle? && v.stored.None?
    ensures var ready := Run(req, v, [Begin, Open] + if req.deep then [Renew(true), Archive(true), Report] else []);
            && ready.memories == v.memories && ready.phase.Working? && !ready.phase.renewed
            && !NeedsArchive(req, ready.phase.p) && ready.phase.p.accepted == []
  {
    var begun := Run(req, v, [Begin, Open]);
    RunTwo(req, v, Begin, Open);
    if req.deep {
      RunThree(req, begun, Renew(true), Archive(true), Report);
      RunAppend(req, v, [Begin, Open], [Renew(true), Archive(true), Report]);
    } else {
      assert [Begin, Open] + [] == [Begin, Open];
    }
  }

  lemma SingleEnds(req: Request, v: Sys)
    requires v.phase.Working? && !v.phase.renewed && AllAccepted(req, v.phase.p)
    ensures Run(req, v, (if req.summary.Some? then [Renew(true)] else []) + [Summarize, Renew(true), Finish]).phase.Answered?
  {
    var renewal := if req.summary.Some? then [Renew(true)] else [];
    assert req.summary.Some? ==> renewal[..0] == [];
    var renewed := Run(req, v, renewal);
    RunThree(req, renewed, Summarize, Renew(true), Finish);
    RunAppend(req, v, renewal, [Summarize, Renew(true), Finish]);
  }

  lemma SingleRuns(job: JobId, req: Request, start: System)
    requires Start(job, start) && req.job == job && Storable(req)
    ensures Single(req, start).phase.Answered?
  {
    hide Step, NeedsArchive;
    var v := Sys(start.memories, start.stored, start.archive, start.summary, Idle);
    assert forall i :: 0 <= i < |req.candidates| ==> IsJobs(job, Output(req, i));
    var opening := [Begin, Open] + if req.deep then [Renew(true), Archive(true), Report] else [];
    SingleReady(req, v);
    var ready := Run(req, v, opening);
    IngestAllRuns(req, ready, |req.candidates|);
    var ingested := Run(req, ready, IngestAll(|req.candidates|));
    SameArchive(req, ready.phase.p, ingested.phase.p);
    SingleEnds(req, ingested);
    var closing := (if req.summary.Some? then [Renew(true)] else []) + [Summarize, Renew(true), Finish];
    RunAppend(req, v, opening, IngestAll(|req.candidates|));
    RunAppend(req, v, opening + IngestAll(|req.candidates|), closing);
    assert CrashFree(req) == opening + IngestAll(|req.candidates|) + closing;
  }

  lemma SameArchive(req: Request, p: Progress, p': Progress)
    requires p'.archived == p.archived && !NeedsArchive(req, p) && |p'.accepted| == |req.candidates|
    ensures AllAccepted(req, p')
  {
  }

  lemma SingleStanding(job: JobId, req: Request, start: System)
    requires Start(job, start) && req.job == job
    ensures Standing(req, start, Single(req, start))
  {
    var v := Sys(start.memories, start.stored, start.archive, start.summary, Idle);
    assert forall i :: 0 <= i < |req.candidates| ==> IsJobs(job, Output(req, i));
    assert Standing(req, start, v);
    hide Standing, Step;
    StandingAlone(req, start, v, CrashFree(req));
  }

  /** A single attempt without trouble finishes exactly when every candidate passes ingestion. */
  lemma CrashFreeFinishes(job: JobId, req: Request, start: System)
    requires Start(job, start) && req.job == job
    ensures Single(req, start).phase.Answered? <==> Storable(req)
  {
    hide Single, Standing;
    SingleStanding(job, req, start);
    if Storable(req) {
      SingleRuns(job, req, start);
    } else if Single(req, start).phase.Answered? {
      StandingOutcome(req, start, Single(req, start));
    }
  }

  /**
   Crash refinement: whenever some attempt of any overlapping run finishes, the single attempt without
   trouble finishes too, and the two leave the same memories (timestamps erased), the same accepted ids in
   order, and the same archive and summary.
   */
  lemma CrashRefinement(job: JobId, req: Request, start: System, happenings: seq<Happening>, w: Owner)
    requires Start(job, start) && req.job == job && NothingForgotten(happenings) && OnlyAsked(job, req, start, happenings)
    requires var end := RunAll(job, start, happenings); w in end.attempts && end.attempts[w].req == req && end.attempts[w].phase.Answered?
    ensures Single(req, start).phase.Answered?
    ensures OutcomeOf(req, View(RunAll(job, start, happenings), w)) == OutcomeOf(req, Single(req, start))
  {
    hide Single, Standing, RunAll, OnlyAsked, NothingForgotten;
    FinishedOutcome(job, req, start, happenings, w);
    SingleRuns(job, req, start);
    SingleStanding(job, req, start);
    StandingOutcome(req, start, Single(req, start));
  }

  // ---- What no attempt undoes ----

  lemma ForgottenStep(req: Request, v: Sys, e: Event, id: MemoryId)
    requires id in v.memories && !v.memories[id].active
    ensures id in Step(req, v, e).memories && !Step(req, v, e).memories[id].active
  {
  }

  /** An output that was forgotten is never written again, whoever asks for it and whenever. */
  lemma {:induction false} ForgottenOutputStays(job: JobId, s: System, happenings: seq<Happening>, id: MemoryId)
    requires IsJobs(job, id) && id in s.memories && !s.memories[id].active
    ensures id in RunAll(job, s, happenings).memories && !RunAll(job, s, happenings).memories[id].active
  {
    hide Step, Renewed, Renewing, Admits;
    if happenings != [] {
      var before, h := RunAll(job, s, happenings[..|happenings| - 1]), happenings[|happenings| - 1];
      ForgottenOutputStays(job, s, happenings[..|happenings| - 1], id);
      if h.Act? && h.w in before.attempts {
        ForgottenStep(before.attempts[h.w].req, View(before, h.w), h.e, id);
      } else if h.Renews? && h.w in before.attempts {
        RenewedStores(before, h.w);
        ForgottenStep(before.attempts[h.w].req, View(before, h.w), Renew(Admits(before.lease, h.w, before.clock)), id);
      }
    }
  }
}
