/**
 The lifecycle-job table of one user: enqueue, claim of due jobs, guarded save.

 A run is any interleaving of these transactions with clock advances. A save may present any
 owner and fence at any time, so a stale worker is one that presents an old claim.
 */
module LifecycleJobs {
  import opened Wrappers

  type JobId = nat
  type Owner = nat
  type Time = int

  datatype Status = Queued | Running | RetryPending | Completed | TerminalFailed | Cancelled | Other(name: string)

  /** What a guarded save writes: everything but the request and the lease. */
  datatype Update = Update(status: Status, nextAttempt: Time, attempts: nat, memoryIds: seq<string>, lastError: Option<string>)

  datatype Job<Q> = Job(request: Q, progress: Update, lockedBy: Option<Owner>, lockedUntil: Option<Time>, fence: nat)

  type Jobs<Q> = map<JobId, Job<Q>>

  datatype Claim = Claim(id: JobId, owner: Owner, fence: nat)

  predicate Terminal(s: Status) {
    s in {Completed, TerminalFailed, Cancelled}
  }

  /** Statuses that give the lease up when they are saved. */
  predicate Releases(s: Status) {
    Terminal(s) || s == RetryPending || s == Queued
  }

  predicate Due<Q>(job: Job<Q>, now: Time, due: Time) {
    && job.progress.status in {Queued, Running, RetryPending}
    && (job.lockedUntil.None? || job.lockedUntil.value < now)
    && job.progress.nextAttempt <= due
  }

  function Enqueue<Q>(jobs: Jobs<Q>, id: JobId, request: Q, progress: Update): Jobs<Q> {
    if id in jobs then jobs
    else jobs[id := Job(request, Update(progress.status, progress.nextAttempt, progress.attempts, [], None), None, None, 0)]
  }

  function ClaimJobs<Q>(jobs: Jobs<Q>, ids: set<JobId>, owner: Owner, now: Time, lease: nat): Jobs<Q> {
    map id | id in jobs ::
      if id in ids then
        jobs[id].(progress := jobs[id].progress.(status := Running), lockedBy := Some(owner),
                  lockedUntil := Some(now + lease), fence := jobs[id].fence + 1)
      else jobs[id]
  }

  predicate SaveAdmits<Q>(jobs: Jobs<Q>, claim: Claim, now: Time) {
    && claim.id in jobs
    && jobs[claim.id].lockedBy == Some(claim.owner)
    && jobs[claim.id].fence == claim.fence
    && jobs[claim.id].lockedUntil.Some? && now < jobs[claim.id].lockedUntil.value
  }

  function Save<Q>(jobs: Jobs<Q>, claim: Claim, update: Update, now: Time): Jobs<Q> {
    if !SaveAdmits(jobs, claim, now) then jobs
    else
      var job := jobs[claim.id].(progress := update);
      jobs[claim.id := if Releases(update.status) then job.(lockedBy := None, lockedUntil := None) else job]
  }

  predicate Named(claims: seq<Claim>, id: JobId) {
    exists i :: 0 <= i < |claims| && claims[i].id == id
  }

  lemma NamedOneMore(claims: seq<Claim>, c: Claim)
    ensures forall id :: Named(claims + [c], id) <==> Named(claims, id) || id == c.id
  {
    forall id
      ensures Named(claims + [c], id) <==> Named(claims, id) || id == c.id
    {
      if Named(claims, id) {
        var i :| 0 <= i < |claims| && claims[i].id == id;
        assert (claims + [c])[i].id == id;
      } else {
        assert (claims + [c])[|claims|] == c;
      }
    }
  }

  /** The row order of the claim query. */
  predicate Before<Q>(jobs: Jobs<Q>, a: JobId, b: JobId)
    requires a in jobs && b in jobs
  {
    var x, y := jobs[a].progress.nextAttempt, jobs[b].progress.nextAttempt;
    x < y || (x == y && a < b)
  }

  /** The first of the rows, as many as the limit allows. */
  ghost predicate Selected<Q>(jobs: Jobs<Q>, due: set<JobId>, chosen: set<JobId>, limit: nat) {
    && chosen <= due <= jobs.Keys && |chosen| <= limit
    && forall id :: id in due - chosen ==> |chosen| == limit && forall first :: first in chosen ==> Before(jobs, first, id)
  }

  /** One claim per row, under the row's next fence. */
  ghost predicate Returned<Q>(jobs: Jobs<Q>, chosen: set<JobId>, claims: seq<Claim>, owner: Owner)
    requires chosen <= jobs.Keys
  {
    && |claims| == |chosen| && (forall i, j :: 0 <= i < j < |claims| ==> claims[i].id != claims[j].id)
    && (forall c :: c in claims ==> c.id in chosen && c == Claim(c.id, owner, jobs[c.id].fence + 1))
    && (forall id :: id in chosen ==> Named(claims, id))
  }

  /** The claims name, once each and in any order, the first `limit` due jobs in (next_attempt_at, id) order, under new fences. */
  ghost predicate ClaimsFirst<Q>(jobs: Jobs<Q>, claims: seq<Claim>, owner: Owner, now: Time, due: Time, limit: nat) {
    && |claims| <= limit && (forall i, j :: 0 <= i < j < |claims| ==> claims[i].id != claims[j].id)
    && (forall c :: c in claims ==> c.id in jobs && Due(jobs[c.id], now, due) && c == Claim(c.id, owner, jobs[c.id].fence + 1))
    && (forall id :: id in jobs && Due(jobs[id], now, due) && !Named(claims, id) ==>
          |claims| == limit && forall c :: c in claims ==> Before(jobs, c.id, id))
  }

  lemma ChosenFirst<Q>(jobs: Jobs<Q>, due: set<JobId>, chosen: set<JobId>, claims: seq<Claim>, owner: Owner, now: Time, until: Time, limit: nat)
    requires forall id :: id in due <==> id in jobs && Due(jobs[id], now, until)
    requires Selected(jobs, due, chosen, limit) && Returned(jobs, chosen, claims, owner)
    ensures ClaimsFirst(jobs, claims, owner, now, until, limit)
  {
    hide Due, Before, Named;
    forall id | id in jobs && Due(jobs[id], now, until) && !Named(claims, id)
      ensures |claims| == limit && forall c :: c in claims ==> Before(jobs, c.id, id)
    {
      assert id in due - chosen;
    }
  }

  /** What that says of the rows: status, time and lock decide, and nothing that is due earlier is passed over. */
  lemma FirstMeans<Q>(jobs: Jobs<Q>, claims: seq<Claim>, owner: Owner, now: Time, due: Time, limit: nat)
    requires ClaimsFirst(jobs, claims, owner, now, due, limit)
    ensures |claims| <= limit && forall i, j :: 0 <= i < j < |claims| ==> claims[i].id != claims[j].id
    ensures forall c :: c in claims ==>
              && c.id in jobs && c.owner == owner && c.fence == jobs[c.id].fence + 1
              && jobs[c.id].progress.status in {Queued, Running, RetryPending} && jobs[c.id].progress.nextAttempt <= due
              && (jobs[c.id].lockedUntil.Some? ==> jobs[c.id].lockedUntil.value < now)
    ensures forall id ::
              && id in jobs && jobs[id].progress.status in {Queued, Running, RetryPending} && jobs[id].progress.nextAttempt <= due
              && (jobs[id].lockedUntil.Some? ==> jobs[id].lockedUntil.value < now) && !Named(claims, id) ==>
                |claims| == limit && forall c :: c in claims ==>
                  var first, other := jobs[c.id].progress.nextAttempt, jobs[id].progress.nextAttempt;
                  first < other || (first == other && c.id < id)
  {
    hide Named;
  }

  /** The claimed rows are running under the new lock and keep everything else; the other rows are as they were. */
  lemma ClaimedTable<Q>(jobs: Jobs<Q>, claims: seq<Claim>, owner: Owner, now: Time, lease: nat)
    ensures var jobs' := ClaimJobs(jobs, set c | c in claims :: c.id, owner, now, lease);
            && jobs'.Keys == jobs.Keys
            && forall id :: id in jobs' ==>
                 jobs'[id] == if !Named(claims, id) then jobs[id]
                              else Job(jobs[id].request, jobs[id].progress.(status := Running), Some(owner), Some(now + lease), jobs[id].fence + 1)
  {
    var ids := set c | c in claims :: c.id;
    forall id
      ensures id in ids <==> Named(claims, id)
    {
      if Named(claims, id) {
        var i :| 0 <= i < |claims| && claims[i].id == id;
        assert claims[i] in claims;
      }
    }
  }

  class JobTable<Q> {
    var jobs: Jobs<Q>

    method JobEnqueue(id: JobId, request: Q, progress: Update)
      modifies this
      ensures jobs == Enqueue(old(jobs), id, request, progress)
      ensures id in old(jobs) ==> jobs == old(jobs)
      ensures id !in old(jobs) ==> id in jobs && jobs == old(jobs)[id := jobs[id]] && jobs[id].request == request && jobs[id].fence == 0
      ensures id !in old(jobs) ==> jobs[id].lockedBy.None? && jobs[id].lockedUntil.None?
      ensures id !in old(jobs) ==>
                var p := jobs[id].progress;
                p.status == progress.status && p.nextAttempt == progress.nextAttempt && p.attempts == progress.attempts && p.memoryIds == [] && p.lastError.None?
    {
      if id !in jobs {
        jobs := jobs[id := Job(request, progress.(memoryIds := [], lastError := None), None, None, 0)];
      }
    }

    /**
     Claims the first `limit` due jobs in (next_attempt_at, id) order, and no others. The subselect has
     that order; the updated rows come back in any.
     */
    method JobClaimDue(owner: Owner, now: Time, due: Time, limit: nat, lease: nat) returns (claims: seq<Claim>)
      modifies this
      ensures |claims| <= limit && forall i, j :: 0 <= i < j < |claims| ==> claims[i].id != claims[j].id
      ensures forall c :: c in claims ==>
                && c.id in old(jobs) && c.owner == owner && c.fence == old(jobs)[c.id].fence + 1
                && old(jobs)[c.id].progress.status in {Queued, Running, RetryPending} && old(jobs)[c.id].progress.nextAttempt <= due
                && (old(jobs)[c.id].lockedUntil.Some? ==> old(jobs)[c.id].lockedUntil.value < now)
      ensures forall id ::
                && id in old(jobs) && old(jobs)[id].progress.status in {Queued, Running, RetryPending} && old(jobs)[id].progress.nextAttempt <= due
                && (old(jobs)[id].lockedUntil.Some? ==> old(jobs)[id].lockedUntil.value < now) && !Named(claims, id) ==>
                  |claims| == limit && forall c :: c in claims ==>
                    var first, other := old(jobs)[c.id].progress.nextAttempt, old(jobs)[id].progress.nextAttempt;
                    first < other || (first == other && c.id < id)
      ensures jobs.Keys == old(jobs).Keys
      ensures forall id :: id in jobs ==>
                jobs[id] == if !Named(claims, id) then old(jobs)[id]
                            else Job(old(jobs)[id].request, old(jobs)[id].progress.(status := Running), Some(owner), Some(now + lease), old(jobs)[id].fence + 1)
    {
      hide Due, Before, ClaimJobs, ClaimsFirst, Returned, Named;
      var candidates := set id | id in jobs && Due(jobs[id], now, due);
      var chosen := SelectDue(jobs, candidates, limit);
      claims := Returning(jobs, chosen, owner);
      ChosenFirst(jobs, candidates, chosen, claims, owner, now, due, limit);
      FirstMeans(jobs, claims, owner, now, due, limit);
      ClaimedTable(jobs, claims, owner, now, lease);
      jobs := ClaimJobs(jobs, set c | c in claims :: c.id, owner, now, lease);
    }

    /** UPDATE .. RETURNING: the claimed rows, in any order. */
    method Returning(table: Jobs<Q>, chosen: set<JobId>, owner: Owner) returns (claims: seq<Claim>)
      requires chosen <= table.Keys
      ensures Returned(table, chosen, claims, owner)
    {
      claims := [];
      var todo := chosen;
      while todo != {}
        invariant todo <= chosen && |claims| + |todo| == |chosen|
        invariant forall i, j :: 0 <= i < j < |claims| ==> claims[i].id != claims[j].id
        invariant forall c :: c in claims ==> c.id in chosen - todo && c == Claim(c.id, owner, table[c.id].fence + 1)
        invariant forall id :: id in chosen - todo ==> Named(claims, id)
        decreases todo
      {
        var id :| id in todo;
        NamedOneMore(claims, Claim(id, owner, table[id].fence + 1));
        claims := claims + [Claim(id, owner, table[id].fence + 1)];
        todo := todo - {id};
      }
    }

    /** ORDER BY next_attempt_at, id .. LIMIT. */
    method SelectDue(table: Jobs<Q>, due: set<JobId>, limit: nat) returns (chosen: set<JobId>)
      requires due <= table.Keys
      ensures Selected(table, due, chosen, limit)
    {
      chosen := {};
      while chosen != due && |chosen| < limit
        invariant chosen <= due && |chosen| <= limit
        invariant forall id, first :: id in due - chosen && first in chosen ==> Before(table, first, id)
        decreases due - chosen
      {
        var first := FirstDue(table, due - chosen);
        chosen := chosen + {first};
      }
    }

    method FirstDue(table: Jobs<Q>, open: set<JobId>) returns (first: JobId)
      requires open != {} && forall id :: id in open ==> id in table
      ensures first in open && forall id :: id in open && id != first ==> Before(table, first, id)
    {
      first :| first in open;
      var rest := open - {first};
      while rest != {}
        invariant first in open && rest <= open
        invariant forall id :: id in open && id !in rest && id != first ==> Before(table, first, id)
        decreases rest
      {
        var id :| id in rest;
        if Before(table, id, first) {
          first := id;
        }
        rest := rest - {id};
      }
    }

    method JobSaveGuarded(claim: Claim, update: Update, now: Time) returns (saved: bool)
      modifies this
      ensures jobs == Save(old(jobs), claim, update, now)
      ensures saved <==>
                (&& claim.id in old(jobs) && old(jobs)[claim.id].lockedBy == Some(claim.owner) && old(jobs)[claim.id].fence == claim.fence
                 && old(jobs)[claim.id].lockedUntil.Some? && now < old(jobs)[claim.id].lockedUntil.value)
      ensures !saved ==> jobs == old(jobs)
      ensures saved ==>
                var released := update.status in {Completed, TerminalFailed, Cancelled, RetryPending, Queued}; var job := old(jobs)[claim.id];
                jobs == old(jobs)[claim.id := Job(job.request, update, if released then None else job.lockedBy, if released then None else job.lockedUntil, job.fence)]
    {
      saved := SaveAdmits(jobs, claim, now);
      if saved {
        var job := jobs[claim.id].(progress := update);
        if Releases(update.status) {
          job := job.(lockedBy := None, lockedUntil := None);
        }
        jobs := jobs[claim.id := job];
      }
    }
  }

  datatype Sys<Q> = Sys(clock: Time, jobs: Jobs<Q>)

  /** A claim takes any set of due rows: rows locked by a concurrent claim are skipped. */
  datatype Event<Q> =
    | Tick(now: Time)
    | Enqueued(id: JobId, request: Q, progress: Update)
    | Claimed(ids: set<JobId>, owner: Owner, due: Time, lease: nat)
    | Saved(claim: Claim, update: Update)

  predicate ClaimEnabled<Q>(s: Sys<Q>, e: Event<Q>) {
    e.Claimed? && forall id :: id in e.ids ==> id in s.jobs && Due(s.jobs[id], s.clock, e.due)
  }

  function Step<Q>(s: Sys<Q>, e: Event<Q>): Sys<Q> {
    match e
    case Tick(now) => if s.clock <= now then s.(clock := now) else s
    case Enqueued(id, request, progress) => s.(jobs := Enqueue(s.jobs, id, request, progress))
    case Claimed(ids, owner, _, lease) =>
      if ClaimEnabled(s, e) then s.(jobs := ClaimJobs(s.jobs, ids, owner, s.clock, lease)) else s
    case Saved(claim, update) => s.(jobs := Save(s.jobs, claim, update, s.clock))
  }

  function Run<Q>(s: Sys<Q>, events: seq<Event<Q>>): Sys<Q> {
    if events == [] then s
    else Step(Run(s, events[..|events| - 1]), events[|events| - 1])
  }

  /** How often the job is claimed in the run. */
  function Claims<Q>(s: Sys<Q>, events: seq<Event<Q>>, id: JobId): nat {
    if events == [] then 0
    else
      var before := Run(s, events[..|events| - 1]);
      var e := events[|events| - 1];
      Claims(s, events[..|events| - 1], id) + if ClaimEnabled(before, e) && id in e.ids then 1 else 0
  }

  /** The claims whose saves of the job took effect, in order. */
  function Saves<Q>(s: Sys<Q>, events: seq<Event<Q>>, id: JobId): seq<Claim> {
    if events == [] then []
    else
      var before := Run(s, events[..|events| - 1]);
      var e := events[|events| - 1];
      Saves(s, events[..|events| - 1], id) +
      if e.Saved? && e.claim.id == id && SaveAdmits(before.jobs, e.claim, before.clock) then [e.claim] else []
  }

  /** A terminal job is unlocked: true of the empty table and kept by every step. */
  ghost predicate TerminalUnlocked<Q>(s: Sys<Q>) {
    forall id :: id in s.jobs && Terminal(s.jobs[id].progress.status) ==> s.jobs[id].lockedBy.None?
  }

  lemma {:induction false} TerminalUnlockedAlways<Q>(s: Sys<Q>, events: seq<Event<Q>>)
    requires TerminalUnlocked(s)
    ensures TerminalUnlocked(Run(s, events))
  {
    if events != [] {
      TerminalUnlockedAlways(s, events[..|events| - 1]);
    }
  }

  /** completed, terminal_failed and cancelled are absorbing: the whole row stays as it is in every continuation. */
  lemma {:induction false} TerminalAbsorbs<Q>(s: Sys<Q>, events: seq<Event<Q>>, id: JobId)
    requires TerminalUnlocked(s)
    requires id in s.jobs && Terminal(s.jobs[id].progress.status)
    ensures id in Run(s, events).jobs && Run(s, events).jobs[id] == s.jobs[id]
  {
    if events != [] {
      TerminalAbsorbs(s, events[..|events| - 1], id);
    }
  }

  /** The fence counts the claims, so every claim of a job carries a fence no other claim of it ever carries. */
  lemma {:induction false} FenceCountsClaims<Q>(s: Sys<Q>, events: seq<Event<Q>>, id: JobId)
    requires id in s.jobs
    ensures id in Run(s, events).jobs
    ensures Run(s, events).jobs[id].fence == s.jobs[id].fence + Claims(s, events, id)
  {
    if events != [] {
      FenceCountsClaims(s, events[..|events| - 1], id);
    }
  }

  /** No save under a fence older than the row's ever takes effect again. */
  lemma {:induction false} OlderFenceNeverSaves<Q>(s: Sys<Q>, events: seq<Event<Q>>, stale: Claim)
    requires stale.id in s.jobs && stale.fence < s.jobs[stale.id].fence
    ensures stale !in Saves(s, events, stale.id)
  {
    if events != [] {
      OlderFenceNeverSaves(s, events[..|events| - 1], stale);
      FenceCountsClaims(s, events[..|events| - 1], stale.id);
    }
  }

  /** In one state of the table, whatever the time, at most one (owner, fence) pair can save a job. */
  lemma OneSaver<Q>(jobs: Jobs<Q>, a: Claim, b: Claim, now: Time, later: Time)
    requires a.id == b.id && SaveAdmits(jobs, a, now) && SaveAdmits(jobs, b, later)
    ensures a == b
  {
  }

  /** A past save's fence is not ahead of the row's, and under the row's own fence nobody else holds the lock. */
  ghost predicate SaveFits<Q>(s: Sys<Q>, c: Claim, id: JobId) {
    && c.id == id && id in s.jobs && c.fence <= s.jobs[id].fence
    && (c.fence == s.jobs[id].fence && s.jobs[id].lockedBy.Some? ==> s.jobs[id].lockedBy == Some(c.owner))
  }

  ghost predicate SavesSettled<Q>(s: Sys<Q>, saves: seq<Claim>, id: JobId) {
    && (forall i :: 0 <= i < |saves| ==> SaveFits(s, saves[i], id))
    && (forall i, j :: 0 <= i < j < |saves| ==>
          saves[i].fence <= saves[j].fence && (saves[i].fence == saves[j].fence ==> saves[i] == saves[j]))
  }

  /** A row's fence never goes back, and under one fence the lock can only be given up. */
  lemma RowStep<Q>(s: Sys<Q>, e: Event<Q>, id: JobId)
    requires id in s.jobs
    ensures id in Step(s, e).jobs && s.jobs[id].fence <= Step(s, e).jobs[id].fence
    ensures Step(s, e).jobs[id].fence == s.jobs[id].fence && Step(s, e).jobs[id].lockedBy.Some? ==>
              Step(s, e).jobs[id].lockedBy == s.jobs[id].lockedBy
  {
  }

  lemma SaveFitsStep<Q>(s: Sys<Q>, e: Event<Q>, c: Claim, id: JobId)
    requires SaveFits(s, c, id)
    ensures SaveFits(Step(s, e), c, id)
  {
    hide Step;
    RowStep(s, e, id);
  }

  lemma SavesSettledStep<Q>(s: Sys<Q>, e: Event<Q>, saves: seq<Claim>, id: JobId)
    requires SavesSettled(s, saves, id)
    ensures SavesSettled(Step(s, e), saves, id)
  {
    hide Step, SaveFits;
    forall i | 0 <= i < |saves|
      ensures SaveFits(Step(s, e), saves[i], id)
    {
      SaveFitsStep(s, e, saves[i], id);
    }
  }

  lemma SavesSettledSave<Q>(s: Sys<Q>, claim: Claim, saves: seq<Claim>)
    requires SavesSettled(s, saves, claim.id) && SaveAdmits(s.jobs, claim, s.clock)
    ensures SavesSettled(s, saves + [claim], claim.id)
  {
    assert SaveFits(s, claim, claim.id);
    forall i | 0 <= i < |saves|
      ensures saves[i].fence <= claim.fence && (saves[i].fence == claim.fence ==> saves[i] == claim)
    {
      assert SaveFits(s, saves[i], claim.id);
    }
    hide SaveFits;
  }

  /** The effective saves of a job form consecutive turns: fences never go back, and one fence belongs to one owner. */
  lemma {:induction false} SavesTakeTurns<Q>(s: Sys<Q>, events: seq<Event<Q>>, id: JobId)
    ensures SavesSettled(Run(s, events), Saves(s, events, id), id)
  {
    if events != [] {
      var before, saves, e := Run(s, events[..|events| - 1]), Saves(s, events[..|events| - 1], id), events[|events| - 1];
      SavesTakeTurns(s, events[..|events| - 1], id);
      hide Step, SavesSettled, SaveAdmits;
      if e.Saved? && e.claim.id == id && SaveAdmits(before.jobs, e.claim, before.clock) {
        SavesSettledSave(before, e.claim, saves);
        SavesSettledStep(before, e, saves + [e.claim], id);
      } else {
        SavesSettledStep(before, e, saves, id);
        assert saves + [] == saves;
      }
    }
  }
}
