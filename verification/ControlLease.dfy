/**
 How long a call of the control plane has it to itself: nobody fences a call off within its 300 seconds,
 and nobody waits longer than that for a call that stopped.
 */
module ControlLease {
  import opened Wrappers
  import opened Leases
  import opened ControlPlane

  /** The claim a call works under. */
  function ClaimOf<C, R>(phase: Phase<C, R>): Option<LeaseClaim> {
    match phase
    case Claimed(claim) => Some(claim)
    case Loaded(claim, _) => Some(claim)
    case Releasing(claim, _) => Some(claim)
    case _ => None
  }

  /** Every call's claim is its own, and a lock belongs to a call that has not returned. */
  ghost predicate Owned<C, R>(s: Sys<C, R>) {
    && (forall w :: w in s.calls && ClaimOf(s.calls[w]).Some? ==> ClaimOf(s.calls[w]).value.owner == w && ClaimOf(s.calls[w]).value.key == LEASE)
    && (LEASE in s.table && s.table[LEASE].lockedBy.Some? ==>
          var w := s.table[LEASE].lockedBy.value;
          w in s.calls && (s.calls[w].Crashed? || (ClaimOf(s.calls[w]).Some? && ClaimOf(s.calls[w]).value.fence == s.table[LEASE].fence)))
  }

  lemma OwnedStep<C, R>(p: Program<C, R>, s: Sys<C, R>, e: Event<C>)
    requires Owned(s)
    ensures Owned(Step(p, s, e))
  {
    KeysDiffer();
    hide Plane, Terminal;
  }

  lemma {:induction false} OwnedAlways<C, R>(p: Program<C, R>, s: Sys<C, R>, events: seq<Event<C>>)
    requires Start(s)
    ensures Owned(Run(p, s, events))
  {
    hide Step;
    if events != [] {
      OwnedAlways(p, s, events[..|events| - 1]);
      OwnedStep(p, Run(p, s, events[..|events| - 1]), events[|events| - 1]);
    }
  }

  /** The lock is the call's and lasts at least until then. */
  predicate Leased<C, R>(s: Sys<C, R>, w: Owner, until: Time) {
    && w in s.calls && ClaimOf(s.calls[w]).Some? && HoldsLock(s, ClaimOf(s.calls[w]).value)
    && s.table[LEASE].lockedUntil.Some? && until <= s.table[LEASE].lockedUntil.value
  }

  lemma LeasedStep<C, R>(p: Program<C, R>, s: Sys<C, R>, e: Event<C>, w: Owner, began: Time)
    requires Owned(s) && Leased(s, w, began + LEASE_SECONDS) && began <= s.clock <= began + LEASE_SECONDS
    requires w in Step(p, s, e).calls && Unsaved(Step(p, s, e).calls[w])
    ensures Leased(Step(p, s, e), w, began + LEASE_SECONDS)
  {
    KeysDiffer();
    hide Plane, Terminal;
  }

  lemma StaysCall<C, R>(p: Program<C, R>, s: Sys<C, R>, e: Event<C>, w: Owner)
    requires w in s.calls && Unsaved(Step(p, s, e).calls[w])
    ensures Unsaved(s.calls[w]) && s.clock <= Step(p, s, e).clock
  {
    hide Plane, Terminal, Claim, Renew, Release, SaveGuarded;
  }

  lemma {:induction false} LeasedWhile<C, R>(p: Program<C, R>, s: Sys<C, R>, events: seq<Event<C>>, w: Owner, began: Time)
    requires Owned(s) && w in s.calls && Leased(s, w, began + LEASE_SECONDS) && began <= s.clock
    requires w in Run(p, s, events).calls && Unsaved(Run(p, s, events).calls[w]) && Run(p, s, events).clock <= began + LEASE_SECONDS
    ensures Owned(Run(p, s, events)) && Leased(Run(p, s, events), w, began + LEASE_SECONDS) && began <= Run(p, s, events).clock
  {
    hide Step, Owned, Leased;
    if events != [] {
      var before, e := events[..|events| - 1], events[|events| - 1];
      CallsStay(p, s, before, w);
      StaysCall(p, Run(p, s, before), e, w);
      LeasedWhile(p, s, before, w, began);
      OwnedStep(p, Run(p, s, before), e);
      LeasedStep(p, Run(p, s, before), e, w, began);
    }
    hide Unsaved;
  }

  lemma CallStays<C, R>(p: Program<C, R>, s: Sys<C, R>, e: Event<C>, w: Owner)
    requires w in s.calls
    ensures w in Step(p, s, e).calls
  {
    hide Plane, Terminal, Claim, Renew, Release, SaveGuarded;
  }

  lemma {:induction false} CallsStay<C, R>(p: Program<C, R>, s: Sys<C, R>, events: seq<Event<C>>, w: Owner)
    requires w in s.calls
    ensures w in Run(p, s, events).calls
  {
    hide Step;
    if events != [] {
      CallsStay(p, s, events[..|events| - 1], w);
      CallStays(p, Run(p, s, events[..|events| - 1]), events[|events| - 1], w);
    }
  }

  /**
   From its claim on, a call that has not saved is not fenced off for 300 seconds, whatever the others do:
   until then its save is stored, and every other call is refused.
   */
  lemma NeverFencedOff<C, R>(p: Program<C, R>, start: Sys<C, R>, events: seq<Event<C>>, w: Owner, later: seq<Event<C>>, other: Owner)
    requires Start(start) && w !in Run(p, start, events).calls
    requires Step(p, Run(p, start, events), Begin(w)).calls[w].Claimed?
    requires var began, end := Run(p, start, events).clock, Run(p, Step(p, Run(p, start, events), Begin(w)), later);
             w in end.calls && Unsaved(end.calls[w]) && end.clock <= began + LEASE_SECONDS
    ensures var began, end := Run(p, start, events).clock, Run(p, Step(p, Run(p, start, events), Begin(w)), later);
            && (other !in end.calls ==> Step(p, end, Begin(other)).calls[other] == Returned(Failure(Contended)))
            && (end.clock < began + LEASE_SECONDS && end.calls[w].Loaded? && p.op(w)(end.calls[w].control).Done? ==>
                  Stores(p, end, Save(w)) && Step(p, end, Save(w)).calls[w] == Releasing(end.calls[w].claim, Success(p.op(w)(end.calls[w].control).answer)))
  {
    var mid := Run(p, start, events);
    var began, end := mid.clock, Run(p, Step(p, mid, Begin(w)), later);
    OwnedAlways(p, start, events);
    OwnedStep(p, mid, Begin(w));
    LeasedWhile(p, Step(p, mid, Begin(w)), later, w, began);
    PlainThroughout(p, start, events, w, later);
    hide Run, Plane;
  }

  /** The stored control plane never has a terminal status. */
  lemma PlainThroughout<C, R>(p: Program<C, R>, start: Sys<C, R>, events: seq<Event<C>>, w: Owner, later: seq<Event<C>>)
    requires Start(start)
    ensures var end := Run(p, Step(p, Run(p, start, events), Begin(w)), later); PLANE in end.table ==> !Terminal(end.table[PLANE].value)
  {
    hide Step;
    PlainAlways(p, start, events);
    PlainStep(p, Run(p, start, events), Begin(w));
    PlainAlways(p, Step(p, Run(p, start, events), Begin(w)), later);
  }

  predicate Plain<C, R>(s: Sys<C, R>) {
    PLANE in s.table ==> !Terminal(s.table[PLANE].value)
  }

  lemma PlainStep<C, R>(p: Program<C, R>, s: Sys<C, R>, e: Event<C>)
    requires Plain(s)
    ensures Plain(Step(p, s, e))
  {
    KeysDiffer();
    hide Plane;
  }

  lemma {:induction false} PlainAlways<C, R>(p: Program<C, R>, s: Sys<C, R>, events: seq<Event<C>>)
    requires Plain(s)
    ensures Plain(Run(p, s, events))
  {
    hide Step, Plain;
    if events != [] {
      PlainAlways(p, s, events[..|events| - 1]);
      PlainStep(p, Run(p, s, events[..|events| - 1]), events[|events| - 1]);
    }
  }

  /** No lock outlasts 300 seconds from now. */
  predicate Bounded<C, R>(s: Sys<C, R>, until: Time) {
    LEASE in s.table && s.table[LEASE].lockedUntil.Some? ==> s.table[LEASE].lockedUntil.value <= until
  }

  predicate Silent<C>(e: Event<C>) {
    !e.Begin? && !e.Renewal?
  }

  ghost predicate AllSilent<C>(events: seq<Event<C>>) {
    forall e :: e in events ==> Silent(e)
  }

  lemma BoundedStep<C, R>(p: Program<C, R>, s: Sys<C, R>, e: Event<C>)
    requires Bounded(s, s.clock + LEASE_SECONDS)
    ensures Bounded(Step(p, s, e), Step(p, s, e).clock + LEASE_SECONDS)
  {
    KeysDiffer();
    hide Plane, Terminal;
  }

  lemma SilentStep<C, R>(p: Program<C, R>, s: Sys<C, R>, e: Event<C>, until: Time)
    requires Bounded(s, until) && Silent(e)
    ensures Bounded(Step(p, s, e), until)
  {
    KeysDiffer();
    hide Plane, Terminal;
  }

  lemma {:induction false} BoundedAlways<C, R>(p: Program<C, R>, s: Sys<C, R>, events: seq<Event<C>>)
    requires Bounded(s, s.clock + LEASE_SECONDS)
    ensures Bounded(Run(p, s, events), Run(p, s, events).clock + LEASE_SECONDS)
  {
    hide Step, Bounded;
    if events != [] {
      BoundedAlways(p, s, events[..|events| - 1]);
      BoundedStep(p, Run(p, s, events[..|events| - 1]), events[|events| - 1]);
    }
  }

  lemma {:induction false} SilentRun<C, R>(p: Program<C, R>, s: Sys<C, R>, events: seq<Event<C>>, until: Time)
    requires Bounded(s, until) && AllSilent(events)
    ensures Bounded(Run(p, s, events), until)
  {
    hide Step, Bounded, Silent;
    if events != [] {
      var before, e := events[..|events| - 1], events[|events| - 1];
      assert e in events && forall x :: x in before ==> x in events;
      SilentRun(p, s, before, until);
      SilentStep(p, Run(p, s, before), e, until);
    }
  }

  /** Once nobody has claimed or renewed for more than 300 seconds, a new call gets the lease, whoever stopped with it. */
  lemma LapsedGivesWay<C, R>(p: Program<C, R>, start: Sys<C, R>, events: seq<Event<C>>, later: seq<Event<C>>, w: Owner)
    requires Start(start) && (LEASE in start.table ==> start.table[LEASE].lockedUntil.None?)
    requires var mid, end := Run(p, start, events), Run(p, Run(p, start, events), later);
             w !in end.calls && AllSilent(later) && mid.clock + LEASE_SECONDS < end.clock
    ensures Step(p, Run(p, Run(p, start, events), later), Begin(w)).calls[w].Claimed?
  {
    var mid := Run(p, start, events);
    BoundedAlways(p, start, events);
    SilentRun(p, mid, later, mid.clock + LEASE_SECONDS);
    hide Run, Plane, AllSilent;
  }

  predicate Paired<C, R>(s: Sys<C, R>) {
    LEASE in s.table && s.table[LEASE].lockedUntil.Some? ==> s.table[LEASE].lockedBy.Some?
  }

  lemma PairedStep<C, R>(p: Program<C, R>, s: Sys<C, R>, e: Event<C>)
    requires Paired(s)
    ensures Paired(Step(p, s, e))
  {
    KeysDiffer();
    hide Plane, Terminal;
  }

  lemma {:induction false} PairedAlways<C, R>(p: Program<C, R>, s: Sys<C, R>, events: seq<Event<C>>)
    requires Paired(s)
    ensures Paired(Run(p, s, events))
  {
    hide Step, Paired;
    if events != [] {
      PairedAlways(p, s, events[..|events| - 1]);
      PairedStep(p, Run(p, s, events[..|events| - 1]), events[|events| - 1]);
    }
  }

  /** The call has the lock, has not returned, and its time is not over. */
  predicate InTheWay<C, R>(s: Sys<C, R>, u: Owner) {
    && u in s.calls && !s.calls[u].Returned? && LEASE in s.table && s.table[LEASE].lockedBy == Some(u)
    && s.table[LEASE].lockedUntil.Some? && s.clock <= s.table[LEASE].lockedUntil.value
  }

  /** A new call is refused if and only if some call that has not returned is within its time. */
  lemma ContendedIff<C, R>(p: Program<C, R>, start: Sys<C, R>, events: seq<Event<C>>, w: Owner)
    requires Start(start) && (LEASE in start.table ==> start.table[LEASE].lockedUntil.None?) && w !in Run(p, start, events).calls
    ensures Step(p, Run(p, start, events), Begin(w)).calls[w] == Returned(Failure(Contended)) <==> exists u :: InTheWay(Run(p, start, events), u)
  {
    var mid := Run(p, start, events);
    OwnedAlways(p, start, events);
    PairedAlways(p, start, events);
    hide Run, Plane;
    if LEASE in mid.table && mid.table[LEASE].lockedUntil.Some? && mid.clock <= mid.table[LEASE].lockedUntil.value {
      assert InTheWay(mid, mid.table[LEASE].lockedBy.value);
    }
  }

  /** A call may stop for good wherever it is: nothing is undone, and its further steps change nothing. */
  lemma StoppedForGood<C, R>(p: Program<C, R>, s: Sys<C, R>, w: Owner)
    requires w in s.calls && !s.calls[w].Returned?
    ensures var s' := Step(p, s, Crash(w));
            && s'.table == s.table && s'.clock == s.clock && s'.calls == s.calls[w := Crashed]
            && forall e: Event<C> :: !e.Tick? && !e.Foreign? && e.w == w ==> Step(p, s', e) == s'
  {
  }
}
