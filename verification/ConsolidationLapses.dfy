/**
 When a completed job stays completed, and when its checkpoint keeps its inputs: exactly as long as no
 attempt that was overtaken saves, and makes its first save, respectively. Renewing the lease before
 each effect keeps the inputs and does not keep the completion.
 */
module ConsolidationLapses {
  import opened Wrappers
  import opened UserLease
  import opened Consolidation
  import opened ConsolidationAttempts
  import opened ConsolidationRuns
  import opened ConsolidationInHand

  // ---- Under an unexpired lease ----

  /** The attempt is within a lease of its own, claimed or renewed. */
  predicate Held(s: System, w: Owner) {
    s.lease.Some? && s.lease.value.owner == w && s.clock < s.lease.value.until
  }

  /** Every write of the run is made under an unexpired lease of the writer. */
  predicate AllHeld(job: JobId, s: System, happenings: seq<Happening>) {
    happenings != [] ==>
      var before, h := RunAll(job, s, happenings[..|happenings| - 1]), happenings[|happenings| - 1];
      AllHeld(job, s, happenings[..|happenings| - 1]) && (Writing(before, h) ==> Held(before, h.w))
  }

  /** Until it renews, an attempt whose own the lease is has not been overtaken. */
  ghost predicate OwnersInHand(s: System) {
    forall w :: w in s.attempts && (s.attempts[w].phase.Idle? || s.attempts[w].phase.Opening?) && s.lease.Some? && s.lease.value.owner == w ==>
      s.attempts[w].turn == s.turn
  }

  lemma OwnersStep(job: JobId, s: System, h: Happening)
    requires Inv(job, s) && OwnersInHand(s)
    ensures OwnersInHand(Do(job, s, h))
  {
    hide Inv, Writes, Step;
    if h.Act? && h.w in s.attempts {
      Early(s.attempts[h.w].req, View(s, h.w), h.e);
    } else if h.Renews? && h.w in s.attempts && Renewing(s.attempts[h.w].phase) {
      Early(s.attempts[h.w].req, View(s, h.w), Renew(Admits(s.lease, h.w, s.clock)));
    }
  }

  lemma Early(req: Request, v: Sys, e: Event)
    ensures Step(req, v, e).phase.Idle? || Step(req, v, e).phase.Opening? ==> v.phase.Idle? || v.phase.Opening?
  {
    hide Ingestible;
  }

  /** So a first save under an unexpired lease is in hand. */
  lemma {:induction false} HeldNeverOpensLate(job: JobId, start: System, happenings: seq<Happening>)
    requires Start(job, start) && AllHeld(job, start, happenings)
    ensures Within(job, start, happenings, false, true)
    ensures Inv(job, RunAll(job, start, happenings)) && OwnersInHand(RunAll(job, start, happenings))
  {
    hide Inv, Do, Held;
    if happenings == [] {
      StartInv(job, start);
    } else {
      var before, h := happenings[..|happenings| - 1], happenings[|happenings| - 1];
      var s := RunAll(job, start, before);
      HeldNeverOpensLate(job, start, before);
      DoKept(job, s, h);
      OwnersStep(job, s, h);
      if Writing(s, h) && h.e.Open? {
        OpeningOnly(s.attempts[h.w].req, View(s, h.w));
        HeldOwner(s, h.w);
      }
    }
    hide Writing;
  }

  lemma OpeningOnly(req: Request, v: Sys)
    ensures Writes(req, v, Open) ==> v.phase.Opening?
  {
  }

  lemma HeldOwner(s: System, w: Owner)
    requires Held(s, w)
    ensures s.lease.Some? && s.lease.value.owner == w
  {
  }

  // ---- Concrete runs ----

  const JOB: JobId := "job"

  /** One candidate, no archive, no summary. */
  function Asking(transcript: string): Request {
    Request(JOB, transcript, [Candidate("content", "fields", true)], None, false)
  }

  function Empty(): System {
    System(map[], None, None, None, map[], None, 0, 0)
  }

  /** The run so far, and whether all its writes were under an unexpired lease. */
  ghost predicate So(trace: seq<Happening>, s: System, opens: bool, writes: bool, held: bool) {
    RunAll(JOB, Empty(), trace) == s && Within(JOB, Empty(), trace, opens, writes) && (held ==> AllHeld(JOB, Empty(), trace))
  }

  lemma Go(trace: seq<Happening>, s: System, h: Happening, opens: bool, writes: bool, held: bool)
    requires So(trace, s, opens, writes, held)
    requires (opens || !LateOpen(s, h)) && (writes || !LateWrite(s, h)) && (held && Writing(s, h) ==> Held(s, h.w))
    ensures So(trace + [h], Do(JOB, s, h), opens, writes, held)
  {
    hide Do, LateOpen, LateWrite, Held, Writing;
    assert (trace + [h])[..|trace|] == trace;
  }

  /** The attempt at its place, in hand. */
  predicate At(s: System, w: Owner, req: Request, phase: Phase) {
    w in s.attempts && s.attempts[w] == Attempt(req, phase, s.turn) && s.lease.Some? && s.lease.value.owner == w && s.clock < s.lease.value.until
  }

  function Placed(s: System, w: Owner, phase: Phase): System
    requires w in s.attempts
  {
    s.(attempts := s.attempts[w := s.attempts[w].(phase := phase)])
  }

  /** A step of an attempt in hand. */
  lemma Acts(trace: seq<Happening>, s: System, w: Owner, req: Request, phase: Phase, e: Event, opens: bool, writes: bool, held: bool)
    requires So(trace, s, opens, writes, held) && At(s, w, req, phase) && !e.Renew?
    ensures So(trace + [Act(w, e)], Acted(s, w, Step(req, View(s, w), e)), opens, writes, held)
    ensures Do(JOB, s, Act(w, e)) == Acted(s, w, Step(req, View(s, w), e))
  {
    hide So, Step, Writes;
    Go(trace, s, Act(w, e), opens, writes, held);
  }

  /** A renewal that is granted. */
  lemma RenewsNow(trace: seq<Happening>, s: System, w: Owner, req: Request, phase: Phase, opens: bool, writes: bool, held: bool)
    requires So(trace, s, opens, writes, held) && At(s, w, req, phase) && Renewing(phase)
    ensures So(trace + [Renews(w)], Placed(s, w, phase.(renewed := true)).(lease := Some(Claimed(w, s.clock))), opens, writes, held)
  {
    hide So;
    Go(trace, s, Renews(w), opens, writes, held);
  }

  function Claiming(w: Owner, req: Request): seq<Happening> {
    [Claim(w, req), Act(w, Begin), Act(w, Open)]
  }

  /** A claim and the first save over a checkpoint that is not completed, or none. */
  lemma Claims(trace: seq<Happening>, s: System, w: Owner, req: Request, opens: bool, writes: bool, held: bool) returns (s': System)
    requires So(trace, s, opens, writes, held) && w !in s.attempts && req.job == JOB && Admits(s.lease, w, s.clock)
    requires s.stored.Some? ==> s.stored.value.fingerprint == req && !s.stored.value.status.Completed?
    ensures So(trace + Claiming(w, req), s', opens, writes, held)
    ensures var p := Resumed(req, s.stored);
            s' == s.(attempts := s.attempts[w := Attempt(req, Working(p, false), s.turn + 1)], stored := Some(p),
                     lease := Some(Claimed(w, s.clock)), turn := s.turn + 1)
  {
    hide So, Resumed;
    var p := Resumed(req, s.stored);
    Go(trace, s, Claim(w, req), opens, writes, held);
    var s1 := s.(attempts := s.attempts[w := Attempt(req, Idle, s.turn + 1)], lease := Some(Claimed(w, s.clock)), turn := s.turn + 1);
    Acts(trace + [Claim(w, req)], s1, w, req, Idle, Begin, opens, writes, held);
    var s2 := Placed(s1, w, Opening(p));
    assert Acted(s1, w, Step(req, View(s1, w), Begin)) == s2;
    Acts(trace + [Claim(w, req)] + [Act(w, Begin)], s2, w, req, Opening(p), Open, opens, writes, held);
    s' := Acted(s2, w, Step(req, View(s2, w), Open));
    assert trace + [Claim(w, req)] + [Act(w, Begin)] + [Act(w, Open)] == trace + Claiming(w, req);
  }

  function Ingesting(w: Owner, now: Stamp): seq<Happening> {
    [Renews(w), Act(w, Ingest(now, true))]
  }

  function WithOutput(p: Progress, now: Stamp): Progress {
    p.(accepted := [Accepted(OutputId(JOB, 0, "content"), now)])
  }

  function OutputAt(memories: map<MemoryId, Memory>, now: Stamp): map<MemoryId, Memory> {
    memories[OutputId(JOB, 0, "content") := Memory("content", "fields", true, now)]
  }

  /** The attempt writes the output and is about to save its progress. */
  lemma Ingests(trace: seq<Happening>, s: System, w: Owner, req: Request, p: Progress, now: Stamp, opens: bool, writes: bool, held: bool)
    returns (s': System)
    requires So(trace, s, opens, writes, held) && At(s, w, req, Working(p, false)) && req == Asking(req.transcript) && p.accepted == []
    requires OutputId(JOB, 0, "content") in s.memories ==> s.memories[OutputId(JOB, 0, "content")].active
    ensures So(trace + Ingesting(w, now), s', opens, writes, held)
    ensures s' == s.(memories := OutputAt(s.memories, now), attempts := s.attempts[w := Attempt(req, Reporting(WithOutput(p, now)), s.turn)],
                     lease := Some(Claimed(w, s.clock)))
  {
    hide So;
    RenewsNow(trace, s, w, req, Working(p, false), opens, writes, held);
    var s1 := Placed(s, w, Working(p, true)).(lease := Some(Claimed(w, s.clock)));
    Acts(trace + [Renews(w)], s1, w, req, Working(p, true), Ingest(now, true), opens, writes, held);
    assert p.accepted + [Accepted(OutputId(JOB, 0, "content"), now)] == [Accepted(OutputId(JOB, 0, "content"), now)];
    s' := Acted(s1, w, Step(req, View(s1, w), Ingest(now, true)));
    assert trace + [Renews(w)] + [Act(w, Ingest(now, true))] == trace + Ingesting(w, now);
  }

  function Completing(w: Owner): seq<Happening> {
    [Act(w, Report), Act(w, Summarize), Renews(w), Act(w, Finish)]
  }

  /** The attempt saves its progress and completes the job. */
  lemma Completes(trace: seq<Happening>, s: System, w: Owner, req: Request, p: Progress, opens: bool, writes: bool, held: bool)
    returns (s': System)
    requires So(trace, s, opens, writes, held) && At(s, w, req, Reporting(p)) && req == Asking(req.transcript) && |p.accepted| == 1
    ensures So(trace + Completing(w), s', opens, writes, held)
    ensures s' == s.(stored := Some(Ended(p, None)), attempts := s.attempts[w := Attempt(req, Answered(Ended(p, None)), s.turn)],
                     lease := Some(Claimed(w, s.clock)))
  {
    hide So;
    Acts(trace, s, w, req, Reporting(p), Report, opens, writes, held);
    var s1 := Placed(s, w, Working(p, false)).(stored := Some(p));
    assert Acted(s, w, Step(req, View(s, w), Report)) == s1;
    Acts(trace + [Act(w, Report)], s1, w, req, Working(p, false), Summarize, opens, writes, held);
    var s2 := Placed(s1, w, Ending(p, None, false));
    assert Acted(s1, w, Step(req, View(s1, w), Summarize)) == s2;
    RenewsNow(trace + [Act(w, Report)] + [Act(w, Summarize)], s2, w, req, Ending(p, None, false), opens, writes, held);
    var s3 := Placed(s2, w, Ending(p, None, true)).(lease := Some(Claimed(w, s.clock)));
    Acts(trace + [Act(w, Report)] + [Act(w, Summarize)] + [Renews(w)], s3, w, req, Ending(p, None, true), Finish, opens, writes, held);
    s' := Acted(s3, w, Step(req, View(s3, w), Finish));
    assert trace + [Act(w, Report)] + [Act(w, Summarize)] + [Renews(w)] + [Act(w, Finish)] == trace + Completing(w);
  }

  // ---- A late checkpoint ----

  /**
   "a" writes the output and stalls before its save; the lease lapses; "b" does the whole job; "a" saves;
   "c" asks again.
   */
  function LateCheckpoint(): seq<Happening> {
    var req := Asking("t");
    Claiming("a", req) + Ingesting("a", 1) + [Tick(300)] + Claiming("b", req) + Ingesting("b", 2) + Completing("b")
    + [Release("b"), Act("a", Report), Claim("c", req), Act("c", Begin)]
  }

  /** "b" does the whole job over what was saved so far, and gives its lease back. */
  lemma WholeJob(trace: seq<Happening>, s: System, req: Request, opens: bool, writes: bool, held: bool) returns (s': System)
    requires So(trace, s, opens, writes, held) && req == Asking("t") && "b" !in s.attempts && Admits(s.lease, "b", s.clock)
    requires s.stored.Some? ==> s.stored.value.fingerprint == req && s.stored.value.status.Running? && s.stored.value.accepted == []
    requires OutputId(JOB, 0, "content") in s.memories ==> s.memories[OutputId(JOB, 0, "content")].active
    ensures So(trace + Claiming("b", req) + Ingesting("b", 2) + Completing("b") + [Release("b")], s', opens, writes, held)
    ensures s'.attempts.Keys == s.attempts.Keys + {"b"} && (forall u :: u in s.attempts ==> s'.attempts[u] == s.attempts[u])
    ensures s'.memories == OutputAt(s.memories, 2) && s'.lease.None? && s'.turn == s.turn + 1 && s'.clock == s.clock && IsCompleted(s')
    ensures s'.stored.value.fingerprint == req
  {
    hide So, Do;
    var s1 := Claims(trace, s, "b", req, opens, writes, held);
    var q := Resumed(req, s.stored);
    var t1 := trace + Claiming("b", req);
    var s2 := Ingests(t1, s1, "b", req, q, 2, opens, writes, held);
    var t2 := t1 + Ingesting("b", 2);
    var s3 := Completes(t2, s2, "b", req, WithOutput(q, 2), opens, writes, held);
    Go(t2 + Completing("b"), s3, Release("b"), opens, writes, held);
    GivesBack(s3, "b");
    s' := s3.(lease := None);
  }

  lemma GivesBack(s: System, w: Owner)
    requires w in s.attempts && s.attempts[w].phase.Answered? && s.lease.Some? && s.lease.value.owner == w
    ensures Do(JOB, s, Release(w)) == s.(lease := None)
  {
  }

  lemma FirstClaim(req: Request) returns (s: System)
    requires req.job == JOB
    ensures So(Claiming("a", req), s, false, true, true)
    ensures s == Empty().(attempts := map["a" := Attempt(req, Working(Resumed(req, None), false), 1)], stored := Some(Resumed(req, None)),
                          lease := Some(Lease("a", 300)), turn := 1)
  {
    assert So([], Empty(), false, true, true);
    hide So;
    s := Claims([], Empty(), "a", req, false, true, true);
    assert [] + Claiming("a", req) == Claiming("a", req);
  }

  lemma Lapses(trace: seq<Happening>, s: System, opens: bool, writes: bool, held: bool)
    requires So(trace, s, opens, writes, held) && s.clock == 0
    ensures So(trace + [Tick(300)], s.(clock := 300), opens, writes, held)
  {
    hide So;
    Go(trace, s, Tick(300), opens, writes, held);
  }

  lemma Loosely(trace: seq<Happening>, s: System)
    requires So(trace, s, false, true, true)
    ensures So(trace, s, false, true, false)
  {
  }

  /** The late save, and what the next attempt finds. */
  lemma Reopened(trace: seq<Happening>, s: System, w: Owner, req: Request, p: Progress, held: bool) returns (end: System)
    requires So(trace, s, false, true, held) && w in s.attempts
    requires s.attempts[w].req == req && s.attempts[w].phase == Reporting(p) && p.fingerprint == req && p.status.Running?
    requires held ==> Held(s, w)
    ensures So(trace + [Act(w, Report)], end, false, true, held)
    ensures end.stored == Some(p) && end.lease == s.lease && end.turn == s.turn && end.clock == s.clock && end.attempts.Keys == s.attempts.Keys
    ensures end.memories == s.memories
  {
    hide So;
    Go(trace, s, Act(w, Report), false, true, held);
    end := Do(JOB, s, Act(w, Report));
  }

  /** Over the completed checkpoint, the late save leaves a running one, and the next attempt opens the job again. */
  lemma LateCheckpointExample()
    ensures var req := Asking("t"); var done := LateCheckpoint()[..|LateCheckpoint()| - 3]; var end := RunAll(JOB, Empty(), LateCheckpoint());
            && Start(JOB, Empty()) && Within(JOB, Empty(), LateCheckpoint(), false, true)
            && IsCompleted(RunAll(JOB, Empty(), done))
            && end.stored.Some? && end.stored.value.status.Running? && |end.stored.value.accepted| == 1
            && "c" in end.attempts && end.attempts["c"].req == req && end.attempts["c"].phase.Opening?
  {
    hide So, Do, RunAll, Within, AllHeld;
    var req := Asking("t");
    var p := Resumed(req, None);
    var s1 := FirstClaim(req);
    var t1 := Claiming("a", req);
    var s2 := Ingests(t1, s1, "a", req, p, 1, false, true, true);
    var t2 := t1 + Ingesting("a", 1);
    Lapses(t2, s2, false, true, true);
    var s3, t3 := s2.(clock := 300), t2 + [Tick(300)];
    var s4 := WholeJob(t3, s3, req, false, true, true);
    var t4 := t3 + Claiming("b", req) + Ingesting("b", 2) + Completing("b") + [Release("b")];
    Loosely(t4, s4);
    Reached(t4, s4, false, true, true);
    var s5 := Reopened(t4, s4, "a", req, WithOutput(p, 1), false);
    var s6 := AsksAgain(t4 + [Act("a", Report)], s5, req);
    var t6 := t4 + [Act("a", Report)] + [Claim("c", req)] + [Act("c", Begin)];
    assert t6 == LateCheckpoint() && t4 == LateCheckpoint()[..|LateCheckpoint()| - 3];
    Reached(t6, s6, false, true, false);
  }

  lemma AsksAgain(trace: seq<Happening>, s: System, req: Request) returns (end: System)
    requires So(trace, s, false, true, false) && "c" !in s.attempts && s.lease.None? && req.job == JOB
    requires s.stored.Some? && s.stored.value.fingerprint == req && s.stored.value.status.Running?
    ensures So(trace + [Claim("c", req)] + [Act("c", Begin)], end, false, true, false)
    ensures end.stored == s.stored && "c" in end.attempts && end.attempts["c"].req == req && end.attempts["c"].phase.Opening?
  {
    hide So;
    Go(trace, s, Claim("c", req), false, true, false);
    var s1 := Do(JOB, s, Claim("c", req));
    Go(trace + [Claim("c", req)], s1, Act("c", Begin), false, true, false);
    end := Do(JOB, s1, Act("c", Begin));
  }

  lemma Reached(trace: seq<Happening>, s: System, opens: bool, writes: bool, held: bool)
    requires So(trace, s, opens, writes, held)
    ensures RunAll(JOB, Empty(), trace) == s && Within(JOB, Empty(), trace, opens, writes) && (held ==> AllHeld(JOB, Empty(), trace))
  {
  }

  // ---- A renewed checkpoint ----

  /** "a" stalls before a renewal; the lease lapses; "b" does the whole job and gives its lease back; "a" renews and goes on. */
  function RenewedCheckpoint(): seq<Happening> {
    var req := Asking("t");
    Claiming("a", req) + [Tick(300)] + Claiming("b", req) + Ingesting("b", 2) + Completing("b") + [Release("b")]
    + Ingesting("a", 3) + [Act("a", Report)]
  }

  /** The renewal is granted, and the overtaken attempt writes within its lease. */
  lemma IngestsAgain(trace: seq<Happening>, s: System, req: Request, p: Progress) returns (end: System)
    requires So(trace, s, false, true, true) && req == Asking("t") && p.accepted == []
    requires "a" in s.attempts && s.attempts["a"].req == req && s.attempts["a"].phase == Working(p, false) && s.attempts["a"].turn < s.turn && s.lease.None?
    requires OutputId(JOB, 0, "content") in s.memories && s.memories[OutputId(JOB, 0, "content")].active
    ensures So(trace + Ingesting("a", 3), end, false, true, true) && Held(end, "a")
    ensures end.attempts.Keys == s.attempts.Keys && end.attempts["a"].req == req && end.attempts["a"].phase == Reporting(WithOutput(p, 3))
  {
    hide So;
    Go(trace, s, Renews("a"), false, true, true);
    var s1 := Do(JOB, s, Renews("a"));
    assert s1.attempts["a"] == Attempt(req, Working(p, true), s.attempts["a"].turn) && s1.memories == s.memories;
    Go(trace + [Renews("a")], s1, Act("a", Ingest(3, true)), false, true, true);
    assert p.accepted + [Accepted(OutputId(JOB, 0, "content"), 3)] == [Accepted(OutputId(JOB, 0, "content"), 3)];
    end := Do(JOB, s1, Act("a", Ingest(3, true)));
    assert trace + [Renews("a")] + [Act("a", Ingest(3, true))] == trace + Ingesting("a", 3);
  }

  /** Every write is made under an unexpired lease of the writer, and the completed job is running again. */
  lemma RenewedCheckpointExample()
    ensures var done := RenewedCheckpoint()[..|RenewedCheckpoint()| - 3]; var end := RunAll(JOB, Empty(), RenewedCheckpoint());
            && Start(JOB, Empty()) && AllHeld(JOB, Empty(), RenewedCheckpoint()) && Within(JOB, Empty(), RenewedCheckpoint(), false, true)
            && IsCompleted(RunAll(JOB, Empty(), done))
            && end.stored.Some? && end.stored.value.status.Running?
  {
    hide So, Do, RunAll, Within, AllHeld;
    var req := Asking("t");
    var p := Resumed(req, None);
    var s1 := FirstClaim(req);
    var t1 := Claiming("a", req);
    Lapses(t1, s1, false, true, true);
    var s2, t2 := s1.(clock := 300), t1 + [Tick(300)];
    var s3 := WholeJob(t2, s2, req, false, true, true);
    var t3 := t2 + Claiming("b", req) + Ingesting("b", 2) + Completing("b") + [Release("b")];
    Reached(t3, s3, false, true, true);
    var s4 := IngestsAgain(t3, s3, req, p);
    var s5 := Reopened(t3 + Ingesting("a", 3), s4, "a", req, WithOutput(p, 3), true);
    var t5 := t3 + Ingesting("a", 3) + [Act("a", Report)];
    assert t5 == RenewedCheckpoint() && t3 == RenewedCheckpoint()[..|RenewedCheckpoint()| - 3];
    Reached(t5, s5, false, true, true);
  }

  // ---- Late first saves ----

  /** "a" finds no checkpoint and stalls; the lease lapses; "b" does the whole job; "a" makes its first save. */
  function LateFirstSave(): seq<Happening> {
    var req := Asking("t");
    [Claim("a", req), Act("a", Begin), Tick(300)] + Claiming("b", req) + Ingesting("b", 2) + Completing("b") + [Release("b")] + [Act("a", Open)]
  }

  /** "a" has found no checkpoint, and its lease has lapsed. */
  lemma FindsNone(req: Request) returns (s: System)
    requires req.job == JOB
    ensures So([Claim("a", req), Act("a", Begin), Tick(300)], s, true, false, false)
    ensures s == Empty().(attempts := map["a" := Attempt(req, Opening(Resumed(req, None)), 1)], lease := Some(Lease("a", 300)), turn := 1, clock := 300)
  {
    assert So([], Empty(), true, false, false);
    hide So, RunAll, Within, AllHeld;
    Go([], Empty(), Claim("a", req), true, false, false);
    var s1 := Do(JOB, Empty(), Claim("a", req));
    Go([] + [Claim("a", req)], s1, Act("a", Begin), true, false, false);
    var s2 := Do(JOB, s1, Act("a", Begin));
    assert s2 == Empty().(attempts := map["a" := Attempt(req, Opening(Resumed(req, None)), 1)], lease := Some(Lease("a", 300)), turn := 1);
    hide Do;
    Lapses([] + [Claim("a", req)] + [Act("a", Begin)], s2, true, false, false);
    s := s2.(clock := 300);
    assert [] + [Claim("a", req)] + [Act("a", Begin)] + [Tick(300)] == [Claim("a", req), Act("a", Begin), Tick(300)];
  }

  lemma OpensLate(trace: seq<Happening>, s: System, req: Request, p: Progress) returns (end: System)
    requires So(trace, s, true, false, false) && "a" in s.attempts && s.attempts["a"].req == req && s.attempts["a"].phase == Opening(p)
    ensures So(trace + [Act("a", Open)], end, true, false, false) && end.stored == Some(p)
  {
    hide So;
    Go(trace, s, Act("a", Open), true, false, false);
    end := Do(JOB, s, Act("a", Open));
  }

  /** A completed job is opened again. */
  lemma LateFirstSaveExample()
    ensures var done := LateFirstSave()[..|LateFirstSave()| - 1]; var end := RunAll(JOB, Empty(), LateFirstSave());
            && Start(JOB, Empty()) && Within(JOB, Empty(), LateFirstSave(), true, false)
            && IsCompleted(RunAll(JOB, Empty(), done)) && !IsCompleted(end)
  {
    hide So, Do, RunAll, Within, AllHeld;
    var req := Asking("t");
    var s1 := FindsNone(req);
    var t1 := [Claim("a", req), Act("a", Begin), Tick(300)];
    var s2 := WholeJob(t1, s1, req, true, false, false);
    var t2 := t1 + Claiming("b", req) + Ingesting("b", 2) + Completing("b") + [Release("b")];
    Reached(t2, s2, true, false, false);
    var s3 := OpensLate(t2, s2, req, Resumed(req, None));
    assert t2 + [Act("a", Open)] == LateFirstSave() && t2 == LateFirstSave()[..|LateFirstSave()| - 1];
    Reached(t2 + [Act("a", Open)], s3, true, false, false);
  }

  /** "b" makes its first save for other inputs before "a" makes its own. */
  function OtherInputs(): seq<Happening> {
    [Claim("a", Asking("t")), Act("a", Begin), Tick(300)] + Claiming("b", Asking("u")) + [Act("a", Open)]
  }

  /** The checkpoint's inputs are replaced. */
  lemma OtherInputsExample()
    ensures var before := RunAll(JOB, Empty(), OtherInputs()[..|OtherInputs()| - 1]); var end := RunAll(JOB, Empty(), OtherInputs());
            && Start(JOB, Empty()) && Within(JOB, Empty(), OtherInputs(), true, false)
            && before.stored.Some? && before.stored.value.fingerprint == Asking("u")
            && end.stored.Some? && end.stored.value.fingerprint == Asking("t") != Asking("u")
  {
    hide So, Do, RunAll, Within, AllHeld;
    var a, b := Asking("t"), Asking("u");
    var s1 := FindsNone(a);
    var t1 := [Claim("a", a), Act("a", Begin), Tick(300)];
    var s2 := Claims(t1, s1, "b", b, true, false, false);
    var t2 := t1 + Claiming("b", b);
    Reached(t2, s2, true, false, false);
    var s3 := OpensLate(t2, s2, a, Resumed(a, None));
    assert t2 + [Act("a", Open)] == OtherInputs() && t2 == OtherInputs()[..|OtherInputs()| - 1];
    Reached(t2 + [Act("a", Open)], s3, true, false, false);
    assert b.transcript[0] != a.transcript[0];
  }

  // ---- Exactly when ----

  ghost predicate RunOf(job: JobId, start: System, happenings: seq<Happening>, opens: bool, writes: bool) {
    Start(job, start) && Within(job, start, happenings, opens, writes) && NothingForgotten(happenings)
  }

  predicate CompletedAt(job: JobId, start: System, happenings: seq<Happening>, n: nat) {
    n <= |happenings| && IsCompleted(RunAll(job, start, happenings[..n]))
  }

  predicate SavedAt(job: JobId, start: System, happenings: seq<Happening>, n: nat) {
    n <= |happenings| && RunAll(job, start, happenings[..n]).stored.Some?
  }

  /** A completed checkpoint is there to stay in every run of the class. */
  ghost predicate CompletedStaysOver(opens: bool, writes: bool) {
    forall job, start, happenings, n: nat :: RunOf(job, start, happenings, opens, writes) && CompletedAt(job, start, happenings, n) ==>
      RunAll(job, start, happenings).stored == RunAll(job, start, happenings[..n]).stored
  }

  /** A checkpoint's inputs are there to stay. */
  ghost predicate InputsStayOverRuns(opens: bool, writes: bool) {
    forall job, start, happenings, n: nat :: RunOf(job, start, happenings, opens, writes) && SavedAt(job, start, happenings, n) ==>
      SameFingerprint(RunAll(job, start, happenings[..n]), RunAll(job, start, happenings))
  }

  predicate SameFingerprint(s: System, s': System) {
    s.stored.Some? && s'.stored.Some? && s'.stored.value.fingerprint == s.stored.value.fingerprint
  }

  lemma {:induction false} WithinMore(job: JobId, s: System, happenings: seq<Happening>, opens: bool, writes: bool, opens': bool, writes': bool)
    requires Within(job, s, happenings, opens, writes) && (opens ==> opens') && (writes ==> writes')
    ensures Within(job, s, happenings, opens', writes')
  {
    hide Do, LateOpen, LateWrite;
    if happenings != [] {
      WithinMore(job, s, happenings[..|happenings| - 1], opens, writes, opens', writes');
    }
  }

  lemma {:induction false} CompletedStays(job: JobId, start: System, happenings: seq<Happening>, n: nat)
    requires RunOf(job, start, happenings, false, false) && CompletedAt(job, start, happenings, n)
    ensures RunAll(job, start, happenings).stored == RunAll(job, start, happenings[..n]).stored
  {
    hide Orderly, Do, LateOpen, LateWrite, Start, Writing, Forgets;
    if n == |happenings| {
      assert happenings[..n] == happenings;
    } else {
      var before, h := happenings[..|happenings| - 1], happenings[|happenings| - 1];
      assert before[..n] == happenings[..n] && h in happenings && forall x :: x in before ==> x in happenings;
      CompletedStays(job, start, before, n);
      OrderlyAlways(job, start, before);
      NoSaveOver(job, RunAll(job, start, before), h);
    }
  }

  lemma NoSaveOver(job: JobId, s: System, h: Happening)
    requires Orderly(job, s) && IsCompleted(s) && !LateOpen(s, h) && !LateWrite(s, h) && !Forgets(h)
    ensures Do(job, s, h).stored == s.stored
  {
    hide Do, Inv, SameInputs, NoneLeft, LateOpen, LateWrite;
    NobodyWrites(job, s, h);
    SavesStored(job, s, h);
  }

  lemma ExamplesForgetNothing()
    ensures NothingForgotten(LateCheckpoint()) && NothingForgotten(LateFirstSave()) && NothingForgotten(OtherInputs())
  {
  }

  /** Completed jobs stay completed, with the same checkpoint, if and only if no overtaken attempt writes. */
  lemma CompletedStaysIff(opens: bool, writes: bool)
    ensures CompletedStaysOver(opens, writes) <==> !opens && !writes
  {
    hide RunAll, Within, Start, NothingForgotten;
    ExamplesForgetNothing();
    if writes {
      LateCheckpointExample();
      WithinMore(JOB, Empty(), LateCheckpoint(), false, true, opens, writes);
      assert RunOf(JOB, Empty(), LateCheckpoint(), opens, writes) && CompletedAt(JOB, Empty(), LateCheckpoint(), |LateCheckpoint()| - 3);
    } else if opens {
      LateFirstSaveExample();
      assert RunOf(JOB, Empty(), LateFirstSave(), opens, writes) && CompletedAt(JOB, Empty(), LateFirstSave(), |LateFirstSave()| - 1);
    } else {
      forall job, start, happenings, n: nat | RunOf(job, start, happenings, opens, writes) && CompletedAt(job, start, happenings, n)
        ensures RunAll(job, start, happenings).stored == RunAll(job, start, happenings[..n]).stored
      {
        CompletedStays(job, start, happenings, n);
      }
    }
  }

  /** Checkpoints keep their inputs if and only if no overtaken attempt makes its first save. */
  lemma InputsStayIff(opens: bool, writes: bool)
    ensures InputsStayOverRuns(opens, writes) <==> !opens
  {
    hide RunAll, Within, Start, NothingForgotten;
    if opens {
      ExamplesForgetNothing();
      OtherInputsExample();
      WithinMore(JOB, Empty(), OtherInputs(), true, false, opens, writes);
      assert RunOf(JOB, Empty(), OtherInputs(), opens, writes) && SavedAt(JOB, Empty(), OtherInputs(), |OtherInputs()| - 1);
    } else {
      forall job, start, happenings, n: nat | RunOf(job, start, happenings, opens, writes) && SavedAt(job, start, happenings, n)
        ensures SameFingerprint(RunAll(job, start, happenings[..n]), RunAll(job, start, happenings))
      {
        InputsStayOver(job, start, happenings, writes, n);
      }
    }
  }

  /** Where every write is made under an unexpired lease, the inputs stay and every answer is the one asked for. */
  lemma HeldKeepsInputs(job: JobId, start: System, happenings: seq<Happening>, n: nat, w: Owner)
    requires Start(job, start) && AllHeld(job, start, happenings) && NothingForgotten(happenings)
    ensures SavedAt(job, start, happenings, n) ==> SameFingerprint(RunAll(job, start, happenings[..n]), RunAll(job, start, happenings))
    ensures var end := RunAll(job, start, happenings);
            w in end.attempts && end.attempts[w].phase.Answered? ==>
              OutcomeOf(end.attempts[w].req, View(end, w)) == Expected(end.attempts[w].req, start.archive, start.summary)
  {
    hide RunAll, Within, Start, AllHeld, NothingForgotten, OutcomeOf;
    HeldNeverOpensLate(job, start, happenings);
    if SavedAt(job, start, happenings, n) {
      InputsStayOver(job, start, happenings, true, n);
    }
    if w in RunAll(job, start, happenings).attempts && RunAll(job, start, happenings).attempts[w].phase.Answered? {
      FinishedInHand(job, start, happenings, true, w);
    }
  }
}
