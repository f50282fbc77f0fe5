/**
 What holds of a consolidation job while the attempts that write are in hand, that is, while nobody has
 claimed the lease since their own claim: the checkpoint keeps its inputs, and a completed job is
 replayed without a write.
 */
module ConsolidationInHand {
  import opened Wrappers
  import opened UserLease
  import opened Consolidation
  import opened ConsolidationAttempts
  import opened ConsolidationRuns

  // ---- Step by step ----

  /** The write is a save of the checkpoint. */
  predicate Saving(s: System, h: Happening) {
    Writing(s, h) && (h.e.Open? || h.e.Report? || h.e.Finish?)
  }

  /** The write saves progress that is not completed. */
  predicate Reopens(s: System, h: Happening) {
    Saving(s, h) && (h.e.Finish? ==> s.attempts[h.w].phase.error.Some?)
  }

  predicate IsCompleted(s: System) {
    s.stored.Some? && s.stored.value.status.Completed?
  }

  lemma StepSaves(req: Request, v: Sys, e: Event)
    requires PhaseSound(req, v.memories, v.phase)
    ensures var v' := Step(req, v, e);
            if Writes(req, v, e) && (e.Open? || e.Report? || e.Finish?) then
              && v'.stored.Some? && v'.stored.value.fingerprint == req && (e.Finish? ==> v.phase.Ending?)
              && (v'.stored.value.status.Completed? <==> e.Finish? && v.phase.error.None?)
            else v'.stored == v.stored
  {
    hide Ingestible, Backed;
  }

  lemma SavesStored(job: JobId, s: System, h: Happening)
    requires Inv(job, s) && !h.Scrubbed?
    ensures var s' := Do(job, s, h);
            if Saving(s, h) then
              && s'.stored.Some? && s'.stored.value.fingerprint == s.attempts[h.w].req
              && (s'.stored.value.status.Completed? <==> !Reopens(s, h))
            else s'.stored == s.stored
  {
    hide Step, Renewed, Renewing, Admits, Writes;
    if h.Act? && h.w in s.attempts {
      SoundPlace(job, s, h.w);
      StepSaves(s.attempts[h.w].req, View(s, h.w), h.e);
      if h.e.Renew? {
        NotAWrite(s.attempts[h.w].req, View(s, h.w), h.e.granted);
      }
    } else if h.Renews? && h.w in s.attempts {
      RenewedStores(s, h.w);
      NotAWrite(s.attempts[h.w].req, View(s, h.w), Admits(s.lease, h.w, s.clock));
      OnlyWrites(s.attempts[h.w].req, View(s, h.w), Renew(Admits(s.lease, h.w, s.clock)));
    }
    hide Inv;
  }

  lemma SoundPlace(job: JobId, s: System, w: Owner)
    requires Inv(job, s) && w in s.attempts
    ensures PhaseSound(s.attempts[w].req, View(s, w).memories, View(s, w).phase)
  {
    hide PhaseSound, Sound;
  }

  /** A completed job stops being completed in a step if and only if an attempt saves unfinished progress over it, or forgetting scrubs it. */
  lemma ReopenedIff(job: JobId, s: System, h: Happening)
    requires Inv(job, s) && IsCompleted(s)
    ensures !IsCompleted(Do(job, s, h)) <==> Reopens(s, h) || h.Scrubbed?
  {
    hide Inv, Saving;
    if !h.Scrubbed? {
      hide Do;
      SavesStored(job, s, h);
      ReopensSaves(s, h);
    }
  }

  lemma ReopensSaves(s: System, h: Happening)
    ensures Reopens(s, h) ==> Saving(s, h)
  {
  }

  /** A checkpoint's inputs are replaced in a step if and only if an attempt with others saves. */
  lemma InputsReplacedIff(job: JobId, s: System, h: Happening)
    requires Inv(job, s) && s.stored.Some?
    ensures Do(job, s, h).stored.Some?
    ensures Do(job, s, h).stored.value.fingerprint != s.stored.value.fingerprint <==>
              Saving(s, h) && s.attempts[h.w].req != s.stored.value.fingerprint
  {
    hide Inv, Writes;
    if h.Scrubbed? {
      NoSave(s, h);
    } else {
      hide Do;
      SavesStored(job, s, h);
    }
  }

  lemma NoSave(s: System, h: Happening)
    requires !h.Act?
    ensures !Saving(s, h)
  {
  }

  // ---- Runs by what overtaken attempts do ----

  /** An overtaken attempt makes its first save. */
  predicate LateOpen(s: System, h: Happening) {
    Writing(s, h) && h.e.Open? && Overtaken(s, h.w)
  }

  /** An overtaken attempt makes any other write. */
  predicate LateWrite(s: System, h: Happening) {
    Writing(s, h) && !h.e.Open? && Overtaken(s, h.w)
  }

  /** Runs in which overtaken attempts may make first saves, and other writes. */
  predicate Within(job: JobId, s: System, happenings: seq<Happening>, opens: bool, writes: bool) {
    happenings != [] ==>
      var before, h := RunAll(job, s, happenings[..|happenings| - 1]), happenings[|happenings| - 1];
      && Within(job, s, happenings[..|happenings| - 1], opens, writes)
      && (opens || !LateOpen(before, h)) && (writes || !LateWrite(before, h))
  }

  // ---- Without a late first save ----

  /** Past its first save, or answered from a checkpoint. */
  predicate PastOpen(phase: Phase) {
    phase.Working? || phase.Reporting? || phase.Ending? || phase.Answered?
  }

  /** The attempt is running and nobody has claimed the lease since. */
  predicate InHand(s: System, w: Owner) {
    w in s.attempts && !s.attempts[w].phase.Stopped? && s.attempts[w].turn == s.turn
  }

  /** Whoever saved before asks what the checkpoint says, and so does the one attempt in hand, once it has looked. */
  ghost predicate SameInputs(s: System) {
    && (forall w :: w in s.attempts && PastOpen(s.attempts[w].phase) ==> s.stored.Some? && s.stored.value.fingerprint == s.attempts[w].req)
    && (forall w :: InHand(s, w) && s.attempts[w].phase.Opening? && s.stored.Some? ==> s.stored.value.fingerprint == s.attempts[w].req)
    && (forall u, w :: InHand(s, u) && InHand(s, w) ==> u == w)
  }

  /** How a step moves the attempt. */
  lemma PhaseMoves(req: Request, v: Sys, e: Event)
    ensures var v' := Step(req, v, e);
            && (PastOpen(v'.phase) ==>
                  PastOpen(v.phase) || (e.Open? && v.phase.Opening?) || (v.stored.Some? && v.stored.value.fingerprint == req && v'.stored == v.stored))
            && (v'.phase.Opening? ==> v'.phase == v.phase || (v.phase.Idle? && (v.stored.Some? ==> v.stored.value.fingerprint == req)))
            && (v.phase.Stopped? ==> v'.phase.Stopped?)
            && (Writes(req, v, e) ==> v.phase.Opening? || PastOpen(v.phase))
            && (e.Open? && v.phase.Opening? ==> Writes(req, v, e))
  {
    hide Ingestible;
  }

  /** An attempt that writes past its first save, or makes it in hand, asks what the checkpoint says. */
  lemma SaverAgrees(job: JobId, s: System, h: Happening)
    requires Inv(job, s) && SameInputs(s) && !LateOpen(s, h) && Writing(s, h)
    ensures s.stored.Some? ==> s.attempts[h.w].req == s.stored.value.fingerprint
    ensures s.stored.None? ==> h.e.Open?
  {
    PhaseMoves(s.attempts[h.w].req, View(s, h.w), h.e);
    TurnBounded(job, s, h.w);
    hide Writes, Inv;
    if s.attempts[h.w].phase.Opening? {
      assert h.e.Open? by {
        OnlyOpens(s.attempts[h.w].req, View(s, h.w), h.e);
      }
      assert InHand(s, h.w);
    }
  }

  lemma OnlyOpens(req: Request, v: Sys, e: Event)
    requires Writes(req, v, e) && v.phase.Opening?
    ensures e.Open?
  {
  }

  lemma TurnBounded(job: JobId, s: System, w: Owner)
    requires Inv(job, s) && w in s.attempts
    ensures s.attempts[w].turn <= s.turn
  {
    hide PhaseSound, Sound;
  }

  lemma InputsStay(job: JobId, s: System, h: Happening)
    requires Inv(job, s) && SameInputs(s) && !LateOpen(s, h)
    ensures s.stored.Some? ==> Do(job, s, h).stored.Some? && Do(job, s, h).stored.value.fingerprint == s.stored.value.fingerprint
  {
    if s.stored.Some? {
      InputsReplacedIff(job, s, h);
      hide Do, Inv;
      if Writing(s, h) {
        SaverAgrees(job, s, h);
      }
    }
  }

  lemma ActInputs(job: JobId, s: System, w: Owner, e: Event)
    requires Inv(job, s) && SameInputs(s) && !LateOpen(s, Act(w, e)) && w in s.attempts && !e.Renew?
    ensures SameInputs(Do(job, s, Act(w, e)))
  {
    var h, req, v := Act(w, e), s.attempts[w].req, View(s, w);
    var s' := Do(job, s, h);
    InputsStay(job, s, h);
    PhaseMoves(req, v, e);
    SavesStored(job, s, h);
    if Writing(s, h) {
      SaverAgrees(job, s, h);
    }
    assert s'.attempts == s.attempts[w := s.attempts[w].(phase := Step(req, v, e).phase)] && s'.turn == s.turn;
    assert v.stored == s.stored && v.phase == s.attempts[w].phase;
    hide Do, Step, Inv, Writes;
    forall u | u in s'.attempts && PastOpen(s'.attempts[u].phase)
      ensures s'.stored.Some? && s'.stored.value.fingerprint == s'.attempts[u].req
    {
      if u == w && !PastOpen(v.phase) && e.Open? && v.phase.Opening? {
        assert Saving(s, h);
      }
    }
    forall u | InHand(s', u) && s'.attempts[u].phase.Opening? && s'.stored.Some?
      ensures s'.stored.value.fingerprint == s'.attempts[u].req
    {
      assert InHand(s, u);
      if u != w && s.stored.None? {
        assert Saving(s, h) && e.Open?;
        OpensInHand(job, s, h);
      }
    }
    forall u, x | InHand(s', u) && InHand(s', x)
      ensures u == x
    {
      assert InHand(s, u) && InHand(s, x);
    }
  }

  lemma OpensInHand(job: JobId, s: System, h: Happening)
    requires Inv(job, s) && !LateOpen(s, h) && Writing(s, h) && h.e.Open?
    ensures InHand(s, h.w)
  {
    TurnBounded(job, s, h.w);
    hide Inv;
  }

  /** The lease may go to somebody else. */
  lemma TurnInputs(s: System, s': System)
    requires SameInputs(s) && s'.attempts == s.attempts && s.turn <= s'.turn
    requires forall w :: w in s.attempts ==> s.attempts[w].turn <= s.turn
    requires s.stored.Some? <==> s'.stored.Some?
    requires s.stored.Some? ==> s'.stored.value.fingerprint == s.stored.value.fingerprint
    ensures SameInputs(s')
  {
    assert forall w :: InHand(s', w) ==> InHand(s, w);
  }

  lemma ClaimInputs(job: JobId, s: System, w: Owner, req: Request)
    requires Inv(job, s) && SameInputs(s)
    ensures SameInputs(Do(job, s, Claim(w, req)))
  {
    hide PhaseSound, Sound, Step, Renewed;
    var s' := Do(job, s, Claim(w, req));
    assert forall u :: InHand(s', u) && u != w ==> InHand(s, u);
    assert forall u :: u in s.attempts ==> s.attempts[u].turn <= s.turn;
  }

  lemma RenewInputs(job: JobId, s: System, w: Owner)
    requires Inv(job, s) && SameInputs(s) && w in s.attempts && Renewing(s.attempts[w].phase)
    ensures SameInputs(Do(job, s, Renews(w)))
  {
    hide PhaseSound, Sound;
    var renewed, granted := Renewed(s, w), Admits(s.lease, w, s.clock);
    RenewedStores(s, w);
    InvTurn(job, s, renewed);
    TurnInputs(s, renewed);
    NotAWrite(s.attempts[w].req, View(s, w), granted);
    OnlyWrites(s.attempts[w].req, View(s, w), Renew(granted));
    PhaseMoves(s.attempts[w].req, View(s, w), Renew(granted));
    var s' := Do(job, s, Renews(w));
    assert forall u :: InHand(s', u) ==> InHand(renewed, u);
  }

  lemma InputsStep(job: JobId, s: System, h: Happening)
    requires Inv(job, s) && SameInputs(s) && !LateOpen(s, h)
    ensures SameInputs(Do(job, s, h))
  {
    hide Inv, SameInputs, Step, Renewed, Renewing, Writes, LateOpen;
    if h.Act? {
      if h.w in s.attempts && !h.e.Renew? {
        ActInputs(job, s, h.w, h.e);
      }
    } else if h.Renews? {
      if h.w in s.attempts && Renewing(s.attempts[h.w].phase) {
        RenewInputs(job, s, h.w);
      }
    } else if h.Claim? {
      ClaimInputs(job, s, h.w, h.req);
    } else {
      Turns(job, s);
      TurnInputs(s, Do(job, s, h));
    }
  }

  lemma Turns(job: JobId, s: System)
    requires Inv(job, s)
    ensures forall w :: w in s.attempts ==> s.attempts[w].turn <= s.turn
  {
    hide PhaseSound, Sound;
  }

  lemma StartInputs(job: JobId, s: System)
    requires Start(job, s)
    ensures SameInputs(s)
  {
  }

  lemma {:induction false} InputsAlways(job: JobId, start: System, happenings: seq<Happening>, writes: bool)
    requires Start(job, start) && Within(job, start, happenings, false, writes)
    ensures Inv(job, RunAll(job, start, happenings)) && SameInputs(RunAll(job, start, happenings))
  {
    hide Inv, SameInputs, Do, LateOpen, LateWrite, Start;
    if happenings == [] {
      StartInv(job, start);
      StartInputs(job, start);
    } else {
      var before := happenings[..|happenings| - 1];
      InputsAlways(job, start, before, writes);
      DoKept(job, RunAll(job, start, before), happenings[|happenings| - 1]);
      InputsStep(job, RunAll(job, start, before), happenings[|happenings| - 1]);
    }
  }

  /** The checkpoint's inputs, once there, stay in every continuation. */
  lemma {:induction false} InputsStayOver(job: JobId, start: System, happenings: seq<Happening>, writes: bool, n: nat)
    requires Start(job, start) && Within(job, start, happenings, false, writes) && n <= |happenings|
    requires RunAll(job, start, happenings[..n]).stored.Some?
    ensures RunAll(job, start, happenings).stored.Some?
    ensures RunAll(job, start, happenings).stored.value.fingerprint == RunAll(job, start, happenings[..n]).stored.value.fingerprint
  {
    hide Inv, SameInputs, Do, LateOpen, LateWrite, Start;
    if n == |happenings| {
      assert happenings[..n] == happenings;
    } else {
      var before := happenings[..|happenings| - 1];
      assert before[..n] == happenings[..n];
      InputsStayOver(job, start, before, writes, n);
      InputsAlways(job, start, before, writes);
      InputsStay(job, RunAll(job, start, before), happenings[|happenings| - 1]);
    }
  }

  /** Without late first saves, all that was ever written for a job was written by attempts that ask what its checkpoint says. */
  lemma {:induction false} InOneHand(job: JobId, start: System, happenings: seq<Happening>, writes: bool, req: Request)
    requires Start(job, start) && Within(job, start, happenings, false, writes)
    requires var stored := RunAll(job, start, happenings).stored; stored.Some? ==> stored.value.fingerprint == req
    ensures OnlyAsked(job, req, start, happenings)
  {
    hide Inv, SameInputs, Do, LateOpen, LateWrite, Start, Writing;
    if happenings != [] {
      var before, h := happenings[..|happenings| - 1], happenings[|happenings| - 1];
      var s := RunAll(job, start, before);
      InputsAlways(job, start, before, writes);
      InputsStay(job, s, h);
      InOneHand(job, start, before, writes, req);
      if Writing(s, h) {
        SaverAgrees(job, s, h);
        if s.stored.None? {
          OpenStores(job, s, h);
        }
      }
    }
  }

  lemma OpenStores(job: JobId, s: System, h: Happening)
    requires Inv(job, s) && Writing(s, h) && h.e.Open?
    ensures Do(job, s, h).stored.Some? && Do(job, s, h).stored.value.fingerprint == s.attempts[h.w].req
  {
    hide Do, Inv;
    SavesStored(job, s, h);
  }

  /** So whichever attempt finishes finds what its own request asks for, other requests under the same job or not. */
  lemma FinishedInHand(job: JobId, start: System, happenings: seq<Happening>, writes: bool, w: Owner)
    requires Start(job, start) && NothingForgotten(happenings) && Within(job, start, happenings, false, writes)
    requires w in RunAll(job, start, happenings).attempts && RunAll(job, start, happenings).attempts[w].phase.Answered?
    ensures var end := RunAll(job, start, happenings);
            OutcomeOf(end.attempts[w].req, View(end, w)) == Expected(end.attempts[w].req, start.archive, start.summary)
  {
    hide Do, RunAll, Start, NothingForgotten, Within, OnlyAsked;
    var end := RunAll(job, start, happenings);
    InputsAlways(job, start, happenings, writes);
    AnsweredAgrees(job, end, w);
    InOneHand(job, start, happenings, writes, end.attempts[w].req);
    FinishedOutcome(job, end.attempts[w].req, start, happenings, w);
  }

  lemma AnsweredAgrees(job: JobId, s: System, w: Owner)
    requires Inv(job, s) && SameInputs(s) && w in s.attempts && s.attempts[w].phase.Answered?
    ensures s.stored.Some? && s.stored.value.fingerprint == s.attempts[w].req && s.attempts[w].req.job == job
  {
    hide PhaseSound, Sound;
  }

  // ---- Without any late write ----

  /** Once the job is completed, no attempt in hand has anything left to do. */
  ghost predicate NoneLeft(s: System) {
    IsCompleted(s) ==> forall w :: InHand(s, w) ==> !Active(s.attempts[w].phase)
  }

  lemma WritersActive(req: Request, v: Sys, e: Event)
    ensures Writes(req, v, e) ==> Active(v.phase)
    ensures Active(Step(req, v, e).phase) ==> Active(v.phase) || (v.stored.Some? ==> !v.stored.value.status.Completed?)
    ensures Writes(req, v, e) && e.Finish? && v.phase.error.None? ==> !Active(Step(req, v, e).phase)
  {
    hide Ingestible;
  }

  /** Over a completed job nobody writes. */
  lemma NobodyWrites(job: JobId, s: System, h: Happening)
    requires Inv(job, s) && NoneLeft(s) && IsCompleted(s) && !LateOpen(s, h) && !LateWrite(s, h)
    ensures !Writing(s, h)
  {
    if h.Act? && h.w in s.attempts {
      WritersActive(s.attempts[h.w].req, View(s, h.w), h.e);
      TurnBounded(job, s, h.w);
      hide Inv, Writes;
      assert Active(s.attempts[h.w].phase) ==> !InHand(s, h.w);
    }
  }

  lemma ActNoneLeft(job: JobId, s: System, w: Owner, e: Event)
    requires Inv(job, s) && SameInputs(s) && NoneLeft(s) && !LateOpen(s, Act(w, e)) && !LateWrite(s, Act(w, e))
    requires w in s.attempts && !e.Renew?
    ensures NoneLeft(Do(job, s, Act(w, e)))
  {
    var h, req, v := Act(w, e), s.attempts[w].req, View(s, w);
    var s' := Do(job, s, h);
    SavesStored(job, s, h);
    WritersActive(req, v, e);
    PhaseMoves(req, v, e);
    if IsCompleted(s) {
      NobodyWrites(job, s, h);
    }
    if Writing(s, h) {
      TurnBounded(job, s, w);
      assert s.attempts[w].turn == s.turn;
    }
    assert s'.attempts == s.attempts[w := s.attempts[w].(phase := Step(req, v, e).phase)] && s'.turn == s.turn;
    hide Do, Step, Inv, Writes;
    if IsCompleted(s') {
      forall u | InHand(s', u)
        ensures !Active(s'.attempts[u].phase)
      {
        assert InHand(s, u);
        if !IsCompleted(s) {
          assert Saving(s, h) && !Reopens(s, h);
          assert InHand(s, w);
          assert u == w;
        }
      }
    }
  }

  lemma QuietNoneLeft(job: JobId, s: System, h: Happening)
    requires Inv(job, s) && NoneLeft(s) && !h.Act? && !h.Renews?
    ensures NoneLeft(Do(job, s, h))
  {
    hide PhaseSound, Sound;
    Turns(job, s);
    var s' := Do(job, s, h);
    if IsCompleted(s') {
      forall u | InHand(s', u)
        ensures !Active(s'.attempts[u].phase)
      {
        if u in s.attempts {
          assert InHand(s, u);
        }
      }
    }
  }

  lemma RenewNoneLeft(job: JobId, s: System, w: Owner)
    requires Inv(job, s) && NoneLeft(s) && w in s.attempts && Renewing(s.attempts[w].phase)
    ensures NoneLeft(Do(job, s, Renews(w)))
  {
    hide PhaseSound, Sound;
    var granted := Admits(s.lease, w, s.clock);
    RenewedStores(s, w);
    Turns(job, s);
    NotAWrite(s.attempts[w].req, View(s, w), granted);
    OnlyWrites(s.attempts[w].req, View(s, w), Renew(granted));
    PhaseMoves(s.attempts[w].req, View(s, w), Renew(granted));
    var s' := Do(job, s, Renews(w));
    assert forall u :: InHand(s', u) ==> InHand(s, u);
  }

  lemma NoneLeftStep(job: JobId, s: System, h: Happening)
    requires Inv(job, s) && SameInputs(s) && NoneLeft(s) && !LateOpen(s, h) && !LateWrite(s, h)
    ensures NoneLeft(Do(job, s, h))
  {
    hide Inv, SameInputs, NoneLeft, Step, Renewed, Renewing, Writes, LateOpen, LateWrite;
    if h.Act? {
      if h.w in s.attempts && !h.e.Renew? {
        ActNoneLeft(job, s, h.w, h.e);
      }
    } else if h.Renews? {
      if h.w in s.attempts && Renewing(s.attempts[h.w].phase) {
        RenewNoneLeft(job, s, h.w);
      }
    } else {
      QuietNoneLeft(job, s, h);
    }
  }

  /** What every run without late writes keeps. */
  ghost predicate Orderly(job: JobId, s: System) {
    Inv(job, s) && SameInputs(s) && NoneLeft(s)
  }

  lemma {:induction false} OrderlyAlways(job: JobId, start: System, happenings: seq<Happening>)
    requires Start(job, start) && Within(job, start, happenings, false, false)
    ensures Orderly(job, RunAll(job, start, happenings))
  {
    hide Inv, SameInputs, NoneLeft, Do, LateOpen, LateWrite;
    if happenings == [] {
      StartInv(job, start);
      StartInputs(job, start);
      StartNoneLeft(job, start);
    } else {
      var before, h := happenings[..|happenings| - 1], happenings[|happenings| - 1];
      OrderlyAlways(job, start, before);
      OrderlyStep(job, RunAll(job, start, before), h);
    }
  }

  lemma StartNoneLeft(job: JobId, s: System)
    requires Start(job, s)
    ensures NoneLeft(s)
  {
  }

  lemma OrderlyStep(job: JobId, s: System, h: Happening)
    requires Orderly(job, s) && !LateOpen(s, h) && !LateWrite(s, h)
    ensures Orderly(job, Do(job, s, h))
  {
    hide Inv, SameInputs, NoneLeft, Do, LateOpen, LateWrite;
    DoKept(job, s, h);
    InputsStep(job, s, h);
    NoneLeftStep(job, s, h);
  }

  // ---- Replaying a completed job ----

  /** Stores and outputs of the job are as they were. */
  ghost predicate Untouched(job: JobId, s: System, s': System) {
    && s'.stored == s.stored && s'.archive == s.archive && s'.summary == s.summary
    && forall id :: IsJobs(job, id) ==> (id in s'.memories <==> id in s.memories) && (id in s.memories ==> s'.memories[id] == s.memories[id])
  }

  /** Attempts that came later have found the checkpoint, or found it to be of other inputs, or look at it yet. */
  ghost predicate Latecomers(s: System, s': System) {
    forall w :: w in s'.attempts && w !in s.attempts ==>
      var a := s'.attempts[w];
      a.phase.Idle? || a.phase.Stopped? || (a.phase.Answered? && Some(a.phase.p) == s.stored && a.req == s.stored.value.fingerprint)
  }

  lemma SettledStep(job: JobId, s: System, mid: System, h: Happening)
    requires Orderly(job, mid) && IsCompleted(mid) && Untouched(job, s, mid) && Latecomers(s, mid)
    requires !LateOpen(mid, h) && !LateWrite(mid, h) && !Forgets(h)
    ensures Untouched(job, s, Do(job, mid, h)) && Latecomers(s, Do(job, mid, h))
  {
    NobodyWrites(job, mid, h);
    hide Inv, SameInputs, NoneLeft, Renewed, Renewing, Admits;
    if h.Act? && h.w in mid.attempts {
      OnlyWrites(mid.attempts[h.w].req, View(mid, h.w), h.e);
      Replays(mid.attempts[h.w].req, View(mid, h.w), h.e);
      hide Step, Writes;
    } else if h.Renews? && h.w in mid.attempts {
      var e := Renew(Admits(mid.lease, h.w, mid.clock));
      RenewedStores(mid, h.w);
      NotAWrite(mid.attempts[h.w].req, View(mid, h.w), Admits(mid.lease, h.w, mid.clock));
      OnlyWrites(mid.attempts[h.w].req, View(mid, h.w), e);
      Replays(mid.attempts[h.w].req, View(mid, h.w), e);
      hide Step, Writes;
    } else {
      hide Step, Writes;
    }
  }

  /** An attempt that begins over a completed checkpoint answers it, or stops. */
  lemma Replays(req: Request, v: Sys, e: Event)
    requires v.stored.Some? && v.stored.value.status.Completed?
    ensures var next := Step(req, v, e).phase;
            v.phase.Idle? || v.phase.Stopped? || v.phase.Answered? ==>
              next == v.phase || next.Stopped? || (v.phase.Idle? && next == Answered(v.stored.value) && req == v.stored.value.fingerprint)
  {
    hide Ingestible;
  }

  /**
   A completed job is replayed without a write, over every run without late writes: checkpoint, outputs,
   archive and summary stay, and every later attempt is answered with the checkpoint or, if it asks for
   other inputs, refused.
   */
  lemma {:induction false} ReplayWritesNothing(job: JobId, s: System, happenings: seq<Happening>)
    requires Orderly(job, s) && IsCompleted(s) && Within(job, s, happenings, false, false) && NothingForgotten(happenings)
    ensures var end := RunAll(job, s, happenings); Orderly(job, end) && Untouched(job, s, end) && Latecomers(s, end)
  {
    hide Orderly, Do, LateOpen, LateWrite, Forgets;
    if happenings != [] {
      var before, h := happenings[..|happenings| - 1], happenings[|happenings| - 1];
      assert h in happenings;
      ReplayWritesNothing(job, s, before);
      OrderlyStep(job, RunAll(job, s, before), h);
      SettledStep(job, s, RunAll(job, s, before), h);
    }
    hide Untouched, Latecomers;
  }
}
