/**
 The user's lease over whole runs: for 300 seconds after a claim nobody else gets it, unless the worker
 gives it back, and after that everybody does. The same for attempts to forget and for attempts to
 consolidate, where renewals extend it.
 */
module AttemptLeases {
  import opened Memories
  import opened UserLease
  import A = Attempts
  import C = ConsolidationAttempts
  import F = Forget
  import Job = Consolidation

  // ---- Attempts to forget ----

  /** The worker's lease of the user. */
  predicate Has<E>(s: A.Sys<E>, user: User, w: Owner, until: Time) {
    w in s.attempts && user in s.leases && s.leases[user] == Lease(w, until)
  }

  ghost predicate Keeps<E>(events: seq<A.Event<E>>, w: Owner) {
    forall e :: e in events ==> e != A.Release(w)
  }

  /** Nobody asks for the user's lease. */
  ghost predicate Unasked<E>(events: seq<A.Event<E>>, user: User) {
    forall e :: e in events ==> !(e.Claim? && e.req.user == user) && !(e.Occupy? && e.user == user)
  }

  lemma {:induction false} LeaseStays<E>(s: A.Sys<E>, events: seq<A.Event<E>>, user: User, w: Owner, until: Time)
    requires Has(s, user, w, until) && Keeps(events, w) && (A.Run(s, events).clock < until || Unasked(events, user))
    ensures Has(A.Run(s, events), user, w, until)
  {
    if events != [] {
      var before, e := events[..|events| - 1], events[|events| - 1];
      assert e in events && forall x :: x in before ==> x in events;
      LeaseStep(A.Run(s, before), e);
      LeaseStays(s, before, user, w, until);
      HasStep(A.Run(s, before), e, user, w, until);
    }
    hide A.Step, Has;
  }

  lemma LeaseStep<E>(s: A.Sys<E>, e: A.Event<E>)
    ensures s.clock <= A.Step(s, e).clock
  {
    hide F.Step, F.EnvAllowed;
  }

  lemma HasStep<E>(s: A.Sys<E>, e: A.Event<E>, user: User, w: Owner, until: Time)
    requires Has(s, user, w, until) && e != A.Release(w)
    requires s.clock < until || (!(e.Claim? && e.req.user == user) && !(e.Occupy? && e.user == user))
    ensures Has(A.Step(s, e), user, w, until)
  {
    hide F.Step, F.EnvAllowed;
  }

  /**
   After a claim that was granted, while the worker does not release: within 300 seconds every other claim
   of the user's lease is refused; later, if nobody has asked meanwhile, every one is granted.
   */
  lemma ClaimExcludes<E>(s: A.Sys<E>, w: Owner, req: F.Request, later: seq<A.Event<E>>, other: Owner, asked: F.Request)
    requires w !in s.attempts && A.Step(s, A.Claim(w, req)).attempts[w].phase.Idle? && Keeps(later, w)
    requires other !in A.Run(A.Step(s, A.Claim(w, req)), later).attempts && asked.user == req.user
    ensures var end := A.Run(A.Step(s, A.Claim(w, req)), later);
            var answer := A.Step(end, A.Claim(other, asked)).attempts[other];
            && (end.clock < s.clock + 300 ==> answer.phase.Stopped? && A.Step(end, A.Claim(other, asked)).leases == end.leases)
            && (s.clock + 300 <= end.clock && Unasked(later, req.user) ==> answer.phase.Idle?)
  {
    var s1 := A.Step(s, A.Claim(w, req));
    var end := A.Run(s1, later);
    hide A.Run, Unasked, Keeps;
    if end.clock < s.clock + 300 || Unasked(later, req.user) {
      LeaseStays(s1, later, req.user, w, s.clock + 300);
      Others(s1, later, w);
    }
  }

  lemma {:induction false} Others<E>(s: A.Sys<E>, events: seq<A.Event<E>>, w: Owner)
    requires w in s.attempts
    ensures w in A.Run(s, events).attempts
  {
    if events != [] {
      Others(s, events[..|events| - 1], w);
      StaysStep(A.Run(s, events[..|events| - 1]), events[|events| - 1], w);
    }
    hide A.Step;
  }

  lemma StaysStep<E>(s: A.Sys<E>, e: A.Event<E>, w: Owner)
    requires w in s.attempts
    ensures w in A.Step(s, e).attempts
  {
    hide F.Step, F.EnvAllowed;
  }

  // ---- Attempts to consolidate ----

  /** The lease is the worker's, at least until then. */
  predicate Leased(s: C.System, w: Owner, until: Time) {
    w in s.attempts && s.lease.Some? && s.lease.value.owner == w && until <= s.lease.value.until
  }

  ghost predicate Holding(happenings: seq<C.Happening>, w: Owner) {
    forall h :: h in happenings ==> h != C.Release(w)
  }

  lemma LeasedStep(job: Job.JobId, s: C.System, h: C.Happening, w: Owner, began: Time)
    requires Leased(s, w, began + 300) && began <= s.clock < began + 300 && h != C.Release(w)
    ensures Leased(C.Do(job, s, h), w, began + 300) && began <= C.Do(job, s, h).clock
  {
    hide Job.Step;
  }

  lemma ClockStep(job: Job.JobId, s: C.System, h: C.Happening)
    ensures s.clock <= C.Do(job, s, h).clock
  {
    hide Job.Step;
  }

  lemma {:induction false} LeasedWhile(job: Job.JobId, s: C.System, happenings: seq<C.Happening>, w: Owner, began: Time)
    requires Leased(s, w, began + 300) && began <= s.clock && Holding(happenings, w)
    requires C.RunAll(job, s, happenings).clock < began + 300
    ensures Leased(C.RunAll(job, s, happenings), w, began + 300) && began <= C.RunAll(job, s, happenings).clock
  {
    if happenings != [] {
      var before, h := happenings[..|happenings| - 1], happenings[|happenings| - 1];
      assert h in happenings && forall x :: x in before ==> x in happenings;
      ClockStep(job, C.RunAll(job, s, before), h);
      LeasedWhile(job, s, before, w, began);
      LeasedStep(job, C.RunAll(job, s, before), h, w, began);
    }
    hide C.Do, Leased;
  }

  /** Nobody asks for the lease: no claim, no renewal, no other use. */
  ghost predicate Quiet(happenings: seq<C.Happening>) {
    forall h :: h in happenings ==> !h.Claim? && !h.Renews? && !h.Occupy?
  }

  predicate Bounded(s: C.System, until: Time) {
    s.lease.Some? ==> s.lease.value.until <= until
  }

  lemma {:induction false} BoundedWhile(job: Job.JobId, s: C.System, happenings: seq<C.Happening>, until: Time)
    requires Bounded(s, until) && Quiet(happenings)
    ensures Bounded(C.RunAll(job, s, happenings), until)
  {
    if happenings != [] {
      var before, h := happenings[..|happenings| - 1], happenings[|happenings| - 1];
      assert h in happenings && forall x :: x in before ==> x in happenings;
      BoundedWhile(job, s, before, until);
    }
    hide Job.Step;
  }

  /**
   The same for a job: within 300 seconds of a claim nobody else claims or renews, unless the worker releases;
   later, if nobody has asked meanwhile, everybody may.
   */
  lemma JobClaimExcludes(job: Job.JobId, s: C.System, w: Owner, req: Job.Request, later: seq<C.Happening>, other: Owner, asked: Job.Request)
    requires w !in s.attempts && req.job == job && asked.job == job && other != w
    requires C.Do(job, s, C.Claim(w, req)).attempts[w].phase.Idle? && Holding(later, w)
    ensures var end := C.RunAll(job, C.Do(job, s, C.Claim(w, req)), later);
            && (end.clock < s.clock + 300 ==>
                  && (other !in end.attempts ==> C.Do(job, end, C.Claim(other, asked)).attempts[other].phase.Stopped?)
                  && C.Do(job, end, C.Renews(other)).lease == end.lease && C.Do(job, end, C.Occupy(other)).lease == end.lease)
            && (s.clock + 300 <= end.clock && Quiet(later) && other !in end.attempts ==>
                  C.Do(job, end, C.Claim(other, asked)).attempts[other].phase.Idle?)
  {
    var s1 := C.Do(job, s, C.Claim(w, req));
    var end := C.RunAll(job, s1, later);
    hide C.RunAll, Quiet, Holding, Job.Step;
    if end.clock < s.clock + 300 {
      LeasedWhile(job, s1, later, w, s.clock);
    } else if Quiet(later) {
      BoundedWhile(job, s1, later, s.clock + 300);
    }
  }
}
