/**
 consolidate_session and consolidate_claimed as the worker runs them: one checkpoint after every durable
 effect, a renewal before it, over stores updated in place. The budget is the number of durable writes
 the worker lives to make, so every budget is a crash point, and any renewal may be refused. Whatever
 happens, the stores end where the job's steps take them, and a worker that lives long enough and meets
 no refusal finishes the job from whatever was left behind.
 */
module ConsolidationWorker {
  import opened Wrappers
  import opened UserLease
  import opened Consolidation
  import A = ConsolidationAttempts
  import R = ConsolidationRuns

  predicate Granted(trace: seq<Event>) {
    forall e :: e in trace && e.Renew? ==> e.granted
  }

  /** The worker's events lead from one state to the other; `sure` says that every renewal is granted. */
  ghost predicate Reaches(req: Request, start: Sys, trace: seq<Event>, s: Sys, sure: bool) {
    Run(req, start, trace) == s && (sure ==> Granted(trace))
  }

  lemma Extend(req: Request, start: Sys, trace: seq<Event>, s: Sys, e: Event, sure: bool)
    requires Reaches(req, start, trace, s, sure) && (sure && e.Renew? ==> e.granted)
    ensures Reaches(req, start, trace + [e], Step(req, s, e), sure)
  {
    hide Step;
    assert (trace + [e])[..|trace|] == trace;
  }

  /** Nothing but the worker's death can stop the attempt. */
  predicate Clear(req: Request, s: Sys, acknowledges: bool, faults: set<nat>) {
    && (s.stored.Some? ==> s.stored.value.fingerprint == req)
    && acknowledges && faults == {}
    && forall i :: 0 <= i < |req.candidates| ==> Ingestible(req, s.memories, i)
  }

  // ---- The worker among others ----

  function HappeningOf(w: Owner, e: Event): A.Happening {
    if e.Renew? then A.Renews(w) else A.Act(w, e)
  }

  function HappeningsOf(w: Owner, trace: seq<Event>): seq<A.Happening> {
    seq(|trace|, i requires 0 <= i < |trace| => HappeningOf(w, trace[i]))
  }

  /** The worker has the lease, claimed or renewed at this instant. */
  predicate Owns(s: A.System, w: Owner) {
    w in s.attempts && s.attempts[w].turn == s.turn && s.lease == Some(Claimed(w, s.clock))
  }

  lemma OneAmong(s: A.System, w: Owner, e: Event)
    requires Owns(s, w) && (e.Renew? ==> e.granted)
    ensures A.Do(s.attempts[w].req.job, s, HappeningOf(w, e)) == A.Acted(s, w, Step(s.attempts[w].req, A.View(s, w), e))
    ensures Owns(A.Do(s.attempts[w].req.job, s, HappeningOf(w, e)), w)
  {
    hide Step;
    if e.Renew? && !A.Renewing(s.attempts[w].phase) {
      NothingToRenew(s.attempts[w].req, A.View(s, w), e);
      assert A.Acted(s, w, A.View(s, w)) == s;
    }
  }

  lemma NothingToRenew(req: Request, v: Sys, e: Event)
    requires e.Renew? && !A.Renewing(v.phase)
    ensures Step(req, v, e) == v
  {
  }

  /** What the attempt's own steps reach, they reach among the other attempts. */
  lemma {:induction false} Among(s: A.System, w: Owner, trace: seq<Event>)
    requires Owns(s, w) && Granted(trace)
    ensures var req := s.attempts[w].req;
            A.RunAll(req.job, s, HappeningsOf(w, trace)) == A.Acted(s, w, Run(req, A.View(s, w), trace))
    ensures Owns(A.RunAll(s.attempts[w].req.job, s, HappeningsOf(w, trace)), w)
  {
    hide Step, A.Do;
    if trace == [] {
      assert A.Acted(s, w, A.View(s, w)) == s;
    } else {
      var n := |trace| - 1;
      Among(s, w, trace[..n]);
      assert HappeningsOf(w, trace)[..n] == HappeningsOf(w, trace[..n]);
      assert trace[n] in trace && HappeningsOf(w, trace)[n] == HappeningOf(w, trace[n]);
      OneAmong(A.RunAll(s.attempts[w].req.job, s, HappeningsOf(w, trace[..n])), w, trace[n]);
    }
  }

  /** A claim, the worker's own steps and the release. */
  function Call(w: Owner, req: Request, trace: seq<Event>): seq<A.Happening> {
    [A.Claim(w, req)] + HappeningsOf(w, trace) + [A.Release(w)]
  }

  lemma {:induction false} RunOn(job: JobId, s: A.System, before: seq<A.Happening>, after: seq<A.Happening>)
    ensures A.RunAll(job, s, before + after) == A.RunAll(job, A.RunAll(job, s, before), after)
  {
    hide A.Do;
    if after == [] {
      assert before + after == before;
    } else {
      var n := |after| - 1;
      RunOn(job, s, before, after[..n]);
      assert (before + after)[..|before| + n] == before + after[..n];
    }
  }

  lemma RunOne(job: JobId, s: A.System, h: A.Happening)
    ensures A.RunAll(job, s, [h]) == A.Do(job, s, h)
  {
    hide A.Do;
    var one: seq<A.Happening> := [h];
    assert one[..0] == [];
  }

  /** The call over the stores it found, among attempts that all stand still meanwhile. */
  lemma Called(s: A.System, w: Owner, req: Request, trace: seq<Event>, end: Sys)
    requires w !in s.attempts && Admits(s.lease, w, s.clock)
    requires Reaches(req, Sys(s.memories, s.stored, s.archive, s.summary, Idle), trace, end, true) && !Active(end.phase)
    ensures A.RunAll(req.job, s, Call(w, req, trace)) ==
            A.System(end.memories, end.stored, end.archive, end.summary,
                     s.attempts[w := A.Attempt(req, end.phase, s.turn + 1)], None, s.turn + 1, s.clock)
  {
    hide Step, Run, A.RunAll;
    var claimed := s.(attempts := s.attempts[w := A.Attempt(req, Idle, s.turn + 1)], lease := Some(Claimed(w, s.clock)), turn := s.turn + 1);
    RunOne(req.job, s, A.Claim(w, req));
    RunOn(req.job, s, [A.Claim(w, req)], HappeningsOf(w, trace));
    Among(claimed, w, trace);
    RunOn(req.job, s, [A.Claim(w, req)] + HappeningsOf(w, trace), [A.Release(w)]);
    var acted := A.Acted(claimed, w, end);
    RunOne(req.job, acted, A.Release(w));
  }

  /** A memory written beside leaves the others as they were. */
  lemma WroteStays(before: map<MemoryId, Memory>, after: map<MemoryId, Memory>, req: Request, k: nat)
    requires k < |req.candidates| && forall id :: id in before && id != Output(req, k) ==> id in after && after[id] == before[id]
    ensures forall i :: 0 <= i < |req.candidates| && i != k && R.Wrote(before, req, i) ==> R.Wrote(after, req, i)
  {
  }

  /** How many candidates were accepted before. */
  function Begun(stored: Option<Progress>): nat {
    if stored.Some? then |stored.value.accepted| else 0
  }

  datatype Answer = Leased | Lost | Answer(p: Progress)

  class Worker {
    /** The answers that renewals get. */
    const grants: nat -> bool
    const clock: Time
    var lease: Option<Lease>
    var memories: map<MemoryId, Memory>
    var stored: Option<Progress>
    var archive: Option<string>
    var summary: Option<string>
    var budget: nat
    var renewals: nat

    constructor (s: Sys, lease: Option<Lease>, clock: Time, grants: nat -> bool, budget: nat)
      ensures At(s.phase) == s && this.lease == lease && this.clock == clock && this.grants == grants && this.budget == budget
    {
      memories, stored, archive, summary := s.memories, s.stored, s.archive, s.summary;
      this.lease, this.clock, this.grants, this.budget, renewals := lease, clock, grants, budget, 0;
    }

    /** The stores, with the attempt at the given point. */
    function At(phase: Phase): Sys
      reads `memories, `stored, `archive, `summary
    {
      Sys(memories, stored, archive, summary, phase)
    }

    ghost predicate Sure() {
      forall k :: grants(k)
    }

    method Spend() returns (alive: bool)
      modifies `budget
      ensures alive == (old(budget) > 0)
      ensures budget == if alive then old(budget) - 1 else 0
    {
      alive := budget > 0;
      if alive {
        budget := budget - 1;
      }
    }

    method RenewLease(req: Request, ghost start: Sys, ghost before: seq<Event>, ghost phase: Phase) returns (granted: bool, ghost trace: seq<Event>)
      requires Reaches(req, start, before, At(phase), Sure())
      modifies `renewals
      ensures Reaches(req, start, trace, Step(req, At(phase), Renew(granted)), Sure()) && (Sure() ==> granted)
    {
      hide Reaches;
      granted := grants(renewals);
      renewals := renewals + 1;
      trace := before + [Renew(granted)];
      Extend(req, start, before, At(phase), Renew(granted), Sure());
    }

    /**
     The whole call, with every renewal granted: it ends where its claim, the attempt's steps and the release
     end among the other attempts; it is refused exactly under somebody's lease; and it answers when nothing
     else refuses and the worker lives long enough.
     */
    method ConsolidateSession(w: Owner, req: Request, now: Stamp, acknowledges: bool, faults: set<nat>,
                              ghost others: map<Owner, A.Attempt>, ghost turn: nat)
      returns (answer: Answer, ghost happenings: seq<A.Happening>, ghost attempts: map<Owner, A.Attempt>, ghost turn': nat)
      requires Sure() && w !in others
      modifies `lease, `memories, `stored, `archive, `summary, `budget, `renewals
      ensures A.RunAll(req.job, old(A.System(memories, stored, archive, summary, others, lease, turn, clock)), happenings) ==
              A.System(memories, stored, archive, summary, attempts, lease, turn', clock)
      ensures answer.Leased? <==> old(lease).Some? && clock < old(lease).value.until && old(lease).value.owner != w
      ensures answer.Answer? ==> attempts == others[w := A.Attempt(req, Answered(answer.p), turn + 1)]
      ensures !answer.Leased? ==> lease.None?
      ensures Admits(old(lease), w, clock) && Clear(req, old(At(Idle)), acknowledges, faults) && old(budget) >= 2 * |req.candidates| + 5 ==> answer.Answer?
      ensures answer.Answer? && !(old(stored).Some? && old(stored).value.status.Completed?) ==>
                forall i :: Begun(old(stored)) <= i < |req.candidates| ==> R.Wrote(memories, req, i)
    {
      hide R.Wrote, Reaches, Clear, A.RunAll;
      ghost var s := A.System(memories, stored, archive, summary, others, lease, turn, clock);
      if !Admits(lease, w, clock) {
        RunOne(req.job, s, A.Claim(w, req));
        return Leased, [A.Claim(w, req)], others[w := A.Attempt(req, Stopped, turn)], turn;
      }
      lease := Some(Claimed(w, clock));
      var p, trace := ConsolidateClaimed(req, now, acknowledges, faults);
      ghost var end := At(if p.Some? then Answered(p.value) else Stopped);
      Called(s, w, req, trace, end);
      lease := Released(lease, w);
      answer := if p.Some? then Answer(p.value) else Lost;
      return answer, Call(w, req, trace), others[w := A.Attempt(req, end.phase, turn + 1)], turn + 1;
    }

    method ConsolidateClaimed(req: Request, now: Stamp, acknowledges: bool, faults: set<nat>)
      returns (answer: Option<Progress>, ghost trace: seq<Event>)
      modifies `memories, `stored, `archive, `summary, `budget, `renewals
      ensures Reaches(req, old(At(Idle)), trace, At(if answer.Some? then Answered(answer.value) else Stopped), Sure())
      ensures Sure() && Clear(req, old(At(Idle)), acknowledges, faults) && old(budget) >= 2 * |req.candidates| + 5 ==> answer.Some?
      ensures answer.Some? && !(old(stored).Some? && old(stored).value.status.Completed?) ==>
                forall i :: Begun(old(stored)) <= i < |req.candidates| ==> R.Wrote(memories, req, i)
    {
      hide NeedsArchive, Reaches, R.Wrote;
      ghost var start := At(Idle);
      NoSteps(req, start, Sure());
      Extend(req, start, [], start, Begin, Sure());
      trace := [] + [Begin];
      if stored.Some? && stored.value.fingerprint != req {
        return None, trace;
      }
      if stored.Some? && stored.value.status.Completed? {
        return Some(stored.value), trace;
      }
      var p := if stored.Some? then stored.value else NewJob(req);
      p := p.(attempts := if p.attempts < MAX_ATTEMPTS then p.attempts + 1 else p.attempts, status := Running);
      ghost var s := At(Opening(p));
      var alive := Spend();
      if !alive {
        Extend(req, start, trace, s, Crash, Sure());
        return None, trace + [Crash];
      }
      stored := Some(p);
      Extend(req, start, trace, s, Open, Sure());
      var ok;
      var error: Option<string>;
      assert |p.accepted| == Begun(old(stored));
      ok, p, error, trace := ArchiveTranscript(req, start, trace + [Open], p, acknowledges);
      if ok && error.None? {
        assert forall i :: 0 <= i < |req.candidates| ==> Ingestible(req, memories, i) == Ingestible(req, start.memories, i);
        ok, p, error, trace := IngestCandidates(req, start, trace, p, now, faults);
        if ok && error.None? {
          ok, error, trace := Summarise(req, start, trace, p);
        }
      }
      if !ok {
        return None, trace;
      }
      answer, trace := End(req, start, trace, p, error);
    }

    /** The checkpoint after an effect. */
    method SaveProgress(req: Request, ghost start: Sys, ghost before: seq<Event>, p: Progress)
      returns (alive: bool, ghost trace: seq<Event>)
      requires Reaches(req, start, before, At(Reporting(p)), Sure())
      modifies `budget, `stored
      ensures Reaches(req, start, trace, At(if alive then Working(p, false) else Stopped), Sure())
      ensures alive == (old(budget) > 0) && budget == if alive then old(budget) - 1 else 0
    {
      hide Reaches;
      ghost var s := At(Reporting(p));
      alive := Spend();
      if alive {
        stored := Some(p);
      }
      Extend(req, start, before, s, if alive then Report else Crash, Sure());
      trace := before + [if alive then Report else Crash];
    }

    /** Where the work has got to: going on, over with an error, or the worker gone. */
    ghost function Place(ok: bool, p: Progress, error: Option<string>): Phase {
      if !ok then Stopped else if error.Some? then Ending(p, error, false) else Working(p, false)
    }

    method ArchiveTranscript(req: Request, ghost start: Sys, ghost before: seq<Event>, p0: Progress, acknowledges: bool)
      returns (ok: bool, p: Progress, error: Option<string>, ghost trace: seq<Event>)
      requires Reaches(req, start, before, At(Working(p0, false)), Sure())
      modifies `budget, `stored, `archive, `renewals
      ensures p.accepted == p0.accepted
      ensures ok && error.None? && req.deep && !p0.archived ==> archive == Some(req.transcript) && p.archived
      ensures Reaches(req, start, trace, At(Place(ok, p, error)), Sure())
      ensures ok && error.None? ==> !NeedsArchive(req, p)
      ensures Sure() && old(budget) >= 2 && acknowledges ==> ok && error.None? && budget >= old(budget) - 2
    {
      hide Reaches;
      p, trace, error := p0, before, None;
      if !NeedsArchive(req, p) {
        return true, p, None, trace;
      }
      var granted;
      granted, trace := RenewLease(req, start, trace, Working(p, false));
      if !granted {
        return true, p, Some(LEASE_LOST), trace;
      }
      ghost var s := At(Working(p, true));
      var alive := Spend();
      if !alive {
        Extend(req, start, trace, s, Crash, Sure());
        return false, p, None, trace + [Crash];
      }
      archive := Some(req.transcript);
      Extend(req, start, trace, s, Archive(acknowledges), Sure());
      trace := trace + [Archive(acknowledges)];
      if !acknowledges {
        return true, p, Some("archive was not acknowledged"), trace;
      }
      p := p.(archived := true);
      ok, trace := SaveProgress(req, start, trace, p);
    }

    /** One candidate: renewal, write, checkpoint. */
    method IngestOne(req: Request, ghost start: Sys, ghost before: seq<Event>, p0: Progress, now: Stamp, fault: bool)
      returns (ok: bool, p: Progress, error: Option<string>, ghost trace: seq<Event>)
      requires !NeedsArchive(req, p0) && |p0.accepted| < |req.candidates|
      requires Reaches(req, start, before, At(Working(p0, false)), Sure())
      modifies `budget, `stored, `memories, `renewals
      ensures Reaches(req, start, trace, At(Place(ok, p, error)), Sure())
      ensures ok && error.None? ==> |p.accepted| == |p0.accepted| + 1 && !NeedsArchive(req, p)
      ensures ok && error.None? ==> R.Wrote(memories, req, |p0.accepted|)
      ensures forall id :: id in old(memories) && id != Output(req, |p0.accepted|) ==> id in memories && memories[id] == old(memories)[id]
      ensures forall i :: 0 <= i < |req.candidates| && Ingestible(req, old(memories), i) ==> Ingestible(req, memories, i)
      ensures Sure() && Ingestible(req, old(memories), |p0.accepted|) && !fault && old(budget) >= 2 ==> ok && error.None? && budget >= old(budget) - 2
    {
      hide Reaches;
      p, trace, error := p0, before, None;
      var granted;
      granted, trace := RenewLease(req, start, trace, Working(p, false));
      if !granted {
        return true, p, Some(LEASE_LOST), trace;
      }
      ghost var s := At(Working(p, true));
      var i := |p.accepted|;
      var id := Output(req, i);
      if (id in memories && !memories[id].active) || !req.candidates[i].storable {
        Extend(req, start, trace, s, Ingest(now, !fault), Sure());
        return true, p, Some("host candidate rejected"), trace + [Ingest(now, !fault)];
      }
      var alive := Spend();
      if !alive {
        Extend(req, start, trace, s, Crash, Sure());
        return false, p, None, trace + [Crash];
      }
      memories := memories[id := Stored(req.candidates[i], now)];
      Extend(req, start, trace, s, Ingest(now, !fault), Sure());
      trace := trace + [Ingest(now, !fault)];
      if fault {
        return true, p, Some("ingestion failed"), trace;
      }
      p := p.(accepted := p.accepted + [Accepted(id, now)]);
      ok, trace := SaveProgress(req, start, trace, p);
    }

    /** Skips the candidates already accepted, then takes one after another. */
    method IngestCandidates(req: Request, ghost start: Sys, ghost before: seq<Event>, p0: Progress, now: Stamp, faults: set<nat>)
      returns (ok: bool, p: Progress, error: Option<string>, ghost trace: seq<Event>)
      requires !NeedsArchive(req, p0)
      requires Reaches(req, start, before, At(Working(p0, false)), Sure())
      modifies `budget, `stored, `memories, `renewals
      ensures Reaches(req, start, trace, At(Place(ok, p, error)), Sure())
      ensures ok && error.None? ==> AllAccepted(req, p)
      ensures ok && error.None? ==> forall i :: |p0.accepted| <= i < |req.candidates| ==> R.Wrote(memories, req, i)
      ensures Sure() && old(budget) >= 2 * |req.candidates| && faults == {}
              && (forall i :: 0 <= i < |req.candidates| ==> Ingestible(req, old(memories), i))
              ==> ok && error.None? && budget >= old(budget) - 2 * |req.candidates|
    {
      hide Reaches, Ingestible;
      p, trace := p0, before;
      ghost var begun := |p0.accepted|;
      while |p.accepted| < |req.candidates|
        invariant begun <= |p.accepted|
        invariant begun <= |req.candidates| ==> |p.accepted| <= |req.candidates|
        invariant begun > |req.candidates| ==> budget == old(budget)
        invariant !NeedsArchive(req, p)
        invariant Reaches(req, start, trace, At(Working(p, false)), Sure())
        invariant forall i :: begun <= i < |p.accepted| && i < |req.candidates| ==> R.Wrote(memories, req, i)
        invariant forall i :: 0 <= i < |req.candidates| && Ingestible(req, old(memories), i) ==> Ingestible(req, memories, i)
        invariant Sure() && old(budget) >= 2 * |req.candidates| && faults == {} && (forall i :: 0 <= i < |req.candidates| ==> Ingestible(req, old(memories), i))
                  ==> budget >= old(budget) - 2 * (|p.accepted| - begun)
        decreases |req.candidates| - |p.accepted|
      {
        ghost var before, k := memories, |p.accepted|;
        ok, p, error, trace := IngestOne(req, start, trace, p, now, |p.accepted| in faults);
        if !ok || error.Some? {
          return;
        }
        WroteStays(before, memories, req, k);
      }
      return true, p, None, trace;
    }

    /** The host's summary, if there is one. */
    method Summarise(req: Request, ghost start: Sys, ghost before: seq<Event>, p: Progress)
      returns (ok: bool, error: Option<string>, ghost trace: seq<Event>)
      requires AllAccepted(req, p)
      requires Reaches(req, start, before, At(Working(p, false)), Sure())
      modifies `budget, `summary, `renewals
      ensures Reaches(req, start, trace, At(if ok then Ending(p, error, false) else Stopped), Sure())
      ensures ok && error.None? && req.summary.Some? ==> summary == req.summary
      ensures Sure() && old(budget) >= 1 ==> ok && error.None? && budget >= old(budget) - 1
    {
      hide Reaches;
      trace := before;
      ghost var s := At(Working(p, false));
      if req.summary.Some? {
        var granted;
        granted, trace := RenewLease(req, start, trace, Working(p, false));
        if !granted {
          return true, Some(LEASE_LOST), trace;
        }
        s := At(Working(p, true));
        var alive := Spend();
        if !alive {
          Extend(req, start, trace, s, Crash, Sure());
          return false, None, trace + [Crash];
        }
        summary := req.summary;
      }
      Extend(req, start, trace, s, Summarize, Sure());
      return true, None, trace + [Summarize];
    }

    /** The last renewal and the last save. */
    method End(req: Request, ghost start: Sys, ghost before: seq<Event>, p0: Progress, error: Option<string>)
      returns (answer: Option<Progress>, ghost trace: seq<Event>)
      requires Reaches(req, start, before, At(Ending(p0, error, false)), Sure())
      modifies `budget, `stored, `renewals
      ensures Reaches(req, start, trace, At(if answer.Some? then Answered(answer.value) else Stopped), Sure())
      ensures Sure() && error.None? && old(budget) >= 1 ==> answer.Some?
      ensures answer.Some? ==> error.None?
    {
      hide Reaches;
      var granted;
      granted, trace := RenewLease(req, start, before, Ending(p0, error, false));
      if !granted {
        return None, trace;
      }
      ghost var s := At(Ending(p0, error, true));
      var alive := Spend();
      if !alive {
        Extend(req, start, trace, s, Crash, Sure());
        return None, trace + [Crash];
      }
      var p := if error.None? then p0.(status := Completed, lastError := None) else p0.(status := RetryPending, lastError := error);
      stored := Some(p);
      Extend(req, start, trace, s, Finish, Sure());
      return if error.None? then Some(p) else None, trace + [Finish];
    }
  }

  lemma NoSteps(req: Request, s: Sys, sure: bool)
    ensures Reaches(req, s, [], s, sure)
  {
  }
}
