/**
 Whole runs of the lifecycle-job table, against the claims and saves that took effect: a claimed job
 belongs to its claimer until the lease runs out or a save gives it up, and to nobody any longer.
 */
module JobRuns {
  import opened Wrappers
  import opened LifecycleJobs

  datatype Grant = Grant(owner: Owner, fence: nat, until: Time)

  /** The statuses whose save gives the job up. */
  predicate GivesUp(update: Update) {
    update.status in {Completed, TerminalFailed, Cancelled, RetryPending, Queued}
  }

  /** The job's last claim after one more event, unless a save has given it up. */
  function NextGrant<Q>(s: Sys<Q>, last: Option<Grant>, e: Event<Q>, id: JobId): Option<Grant> {
    match e
    case Claimed(ids, owner, _, lease) =>
      if ClaimEnabled(s, e) && id in ids then Some(Grant(owner, s.jobs[id].fence + 1, s.clock + lease)) else last
    case Saved(claim, update) =>
      if claim.id == id && SaveAdmits(s.jobs, claim, s.clock) && GivesUp(update) then None else last
    case _ => last
  }

  function LastGrant<Q>(s: Sys<Q>, events: seq<Event<Q>>, id: JobId): Option<Grant> {
    if events == [] then None
    else NextGrant(Run(s, events[..|events| - 1]), LastGrant(s, events[..|events| - 1], id), events[|events| - 1], id)
  }

  /** Nothing is locked. */
  predicate Start<Q>(s: Sys<Q>) {
    forall id :: id in s.jobs ==> s.jobs[id].lockedBy.None? && s.jobs[id].lockedUntil.None?
  }

  predicate Tied<Q>(s: Sys<Q>, id: JobId, last: Option<Grant>) {
    if last.None? then id in s.jobs ==> s.jobs[id].lockedBy.None? && s.jobs[id].lockedUntil.None?
    else id in s.jobs && s.jobs[id].lockedBy == Some(last.value.owner) && s.jobs[id].lockedUntil == Some(last.value.until) && s.jobs[id].fence == last.value.fence
  }

  lemma TiedStep<Q>(s: Sys<Q>, last: Option<Grant>, e: Event<Q>, id: JobId)
    requires Tied(s, id, last)
    ensures Tied(Step(s, e), id, NextGrant(s, last, e, id))
  {
    hide Due;
  }

  lemma {:induction false} AlwaysTied<Q>(s: Sys<Q>, events: seq<Event<Q>>, id: JobId)
    requires Start(s)
    ensures Tied(Run(s, events), id, LastGrant(s, events, id))
  {
    hide Step, NextGrant, Tied;
    if events == [] {
      NothingGranted(s, id);
    } else {
      AlwaysTied(s, events[..|events| - 1], id);
      TiedStep(Run(s, events[..|events| - 1]), LastGrant(s, events[..|events| - 1], id), events[|events| - 1], id);
    }
  }

  lemma NothingGranted<Q>(s: Sys<Q>, id: JobId)
    requires Start(s)
    ensures Tied(s, id, None)
  {
  }

  /**
   What the table answers, over every run from an unlocked table: a claim may take a job if and only if it
   is queued, running or retry_pending, its time has come, and its last claim was given up or is over; and
   a save takes effect if and only if its claim is the last one, not given up and not over yet.
   */
  lemma AnswersFollowGrants<Q>(s: Sys<Q>, events: seq<Event<Q>>, id: JobId, owner: Owner, due: Time, lease: nat, claim: Claim)
    requires Start(s) && claim.id == id
    ensures var end, last := Run(s, events), LastGrant(s, events, id);
            && (ClaimEnabled(end, Claimed({id}, owner, due, lease)) <==>
                  (&& id in end.jobs && end.jobs[id].progress.nextAttempt <= due
                   && (end.jobs[id].progress.status.Queued? || end.jobs[id].progress.status.Running? || end.jobs[id].progress.status.RetryPending?)
                   && (last.Some? ==> last.value.until < end.clock)))
            && (SaveAdmits(end.jobs, claim, end.clock) <==>
                  last.Some? && last.value.owner == claim.owner && last.value.fence == claim.fence && end.clock < last.value.until)
  {
    AlwaysTied(s, events, id);
    hide Run, LastGrant, Start;
  }

  // ---- One claimer at a time ----

  /** A save of the job that takes effect and gives it up. */
  predicate GivenUp<Q>(s: Sys<Q>, e: Event<Q>, id: JobId) {
    e.Saved? && e.claim.id == id && SaveAdmits(s.jobs, e.claim, s.clock) && GivesUp(e.update)
  }

  predicate NeverGivenUp<Q>(s: Sys<Q>, events: seq<Event<Q>>, id: JobId) {
    events != [] ==>
      NeverGivenUp(s, events[..|events| - 1], id) && !GivenUp(Run(s, events[..|events| - 1]), events[|events| - 1], id)
  }

  predicate LockedTo<Q>(s: Sys<Q>, id: JobId, until: Time) {
    id in s.jobs && s.jobs[id].lockedUntil.Some? && until <= s.jobs[id].lockedUntil.value
  }

  lemma LockedStep<Q>(s: Sys<Q>, e: Event<Q>, id: JobId, until: Time)
    requires LockedTo(s, id, until) && s.clock <= until && !GivenUp(s, e, id)
    ensures LockedTo(Step(s, e), id, until) && !(ClaimEnabled(s, e) && id in e.ids)
  {
  }

  /** Once claimed, a job is not claimed again before the lease has run out or a save of its holder has given it up. */
  lemma {:induction false} ClaimedAlone<Q>(s: Sys<Q>, e: Event<Q>, later: seq<Event<Q>>, id: JobId, next: Event<Q>)
    requires ClaimEnabled(s, e) && id in e.ids
    requires NeverGivenUp(Step(s, e), later, id) && Run(Step(s, e), later).clock <= s.clock + e.lease
    ensures LockedTo(Run(Step(s, e), later), id, s.clock + e.lease)
    ensures !(ClaimEnabled(Run(Step(s, e), later), next) && id in next.ids)
  {
    var s1 := Step(s, e);
    if later == [] {
      hide Step;
      FreshlyLocked(s, e, id);
    } else {
      var before := later[..|later| - 1];
      ClockStep(Run(s1, before), later[|later| - 1]);
      ClaimedAlone(s, e, before, id, later[|later| - 1]);
      LockedStep(Run(s1, before), later[|later| - 1], id, s.clock + e.lease);
    }
    hide Run, Step;
  }

  lemma FreshlyLocked<Q>(s: Sys<Q>, e: Event<Q>, id: JobId)
    requires ClaimEnabled(s, e) && id in e.ids
    ensures LockedTo(Step(s, e), id, s.clock + e.lease)
  {
  }

  lemma ClockStep<Q>(s: Sys<Q>, e: Event<Q>)
    ensures s.clock <= Step(s, e).clock
  {
  }
}
