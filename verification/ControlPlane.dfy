/**
 The control plane: a read-modify-write split over four transactions, run by any number of
 workers at once. A worker's run is claim, load and operate, guarded save, release; the clock
 advances and other workers step in between, and a worker may stop for good at any point.
 */
module ControlPlane {
  import opened Wrappers
  import opened Leases

  const LEASE := "control-lease"
  const PLANE := "control-plane"
  const LEASE_SECONDS := 300

  /** What the caller's operation does to a loaded control plane. */
  datatype Outcome<C, R> = Done(control: C, answer: R) | Refused(reason: string)

  datatype CallError = Contended | OperationRefused(reason: string) | LostLease | Overtaken

  datatype Phase<C, R> =
    | Claimed(claim: LeaseClaim)
    | Loaded(claim: LeaseClaim, control: C)
    | Releasing(claim: LeaseClaim, answer: Result<R, CallError>)
    | Returned(answer: Result<R, CallError>)
    | Crashed

  /** One with_control call per owner: worker_owner gives every call a fresh one. */
  datatype Sys<C, R> = Sys(clock: Time, table: Table<C>, calls: map<Owner, Phase<C, R>>)

  datatype Event<C> =
    | Tick(now: Time)
    | Begin(w: Owner)
    | Load(w: Owner)
    | Renewal(w: Owner)
    | Save(w: Owner)
    | Finish(w: Owner)
    | Crash(w: Owner)
    | Foreign(key: Key, row: Row<C>)

  /** The caller's operations, by owner, and the control plane used when none is stored. */
  datatype Program<!C, !R> = Program(op: Owner -> C -> Outcome<C, R>, initial: C)

  datatype Entry<R> = Entry(w: Owner, fence: nat, answer: R)

  function Plane<C, R>(p: Program<C, R>, t: Table<C>): C {
    if PLANE in t && t[PLANE].value.Doc? then t[PLANE].value.body else p.initial
  }

  function At<C, R>(s: Sys<C, R>, w: Owner, phase: Phase<C, R>): Sys<C, R> {
    s.(calls := s.calls[w := phase])
  }

  /** One atomic step; an event that is not enabled changes nothing. */
  function Step<C, R>(p: Program<C, R>, s: Sys<C, R>, e: Event<C>): Sys<C, R> {
    match e
    case Tick(now) => if s.clock <= now then s.(clock := now) else s
    case Begin(w) =>
      if w in s.calls then s else
        var (t, claim) := Leases.Claim(s.table, LEASE, w, s.clock, LEASE_SECONDS);
        At(s.(table := t), w, if claim.Some? then Claimed(claim.value) else Returned(Failure(Contended)))
    case Load(w) =>
      if w in s.calls && s.calls[w].Claimed? then
        var control := Plane(p, s.table);
        At(s, w, match p.op(w)(control)
                 case Done(_, _) => Loaded(s.calls[w].claim, control)
                 case Refused(reason) => Releasing(s.calls[w].claim, Failure(OperationRefused(reason))))
      else s
    case Renewal(w) =>
      if w in s.calls && (s.calls[w].Claimed? || s.calls[w].Loaded?) then
        s.(table := Leases.Renew(s.table, s.calls[w].claim, s.clock, LEASE_SECONDS).0)
      else s
    case Save(w) =>
      if w in s.calls && s.calls[w].Loaded? && p.op(w)(s.calls[w].control).Done? then
        var next := p.op(w)(s.calls[w].control);
        var (t, r) := SaveGuarded(s.table, s.calls[w].claim, PLANE, Doc(None, next.control), s.clock);
        At(s.(table := t), w, Releasing(s.calls[w].claim,
                                        match r
                                        case Applied => Success(next.answer)
                                        case Superseded(_) => Failure(Overtaken)
                                        case LeaseLost => Failure(LostLease)))
      else s
    case Finish(w) =>
      if w in s.calls && s.calls[w].Releasing? then
        At(s.(table := Leases.Release(s.table, s.calls[w].claim)), w, Returned(s.calls[w].answer))
      else s
    case Crash(w) =>
      if w in s.calls && !s.calls[w].Returned? then At(s, w, Crashed) else s
    case Foreign(key, row) =>
      if key == LEASE || key == PLANE then s else s.(table := s.table[key := row])
  }

  /** The step stores a new control plane. */
  predicate Stores<C, R>(p: Program<C, R>, s: Sys<C, R>, e: Event<C>) {
    && e.Save?
    && e.w in s.calls && s.calls[e.w].Loaded? && p.op(e.w)(s.calls[e.w].control).Done?
    && SaveGuarded(s.table, s.calls[e.w].claim, PLANE, Doc(None, p.op(e.w)(s.calls[e.w].control).control), s.clock).1.Applied?
  }

  function Run<C, R>(p: Program<C, R>, s: Sys<C, R>, events: seq<Event<C>>): Sys<C, R> {
    if events == [] then s
    else Step(p, Run(p, s, events[..|events| - 1]), events[|events| - 1])
  }

  /** What the step adds to the log. */
  function Logged<C, R>(p: Program<C, R>, s: Sys<C, R>, e: Event<C>): seq<Entry<R>> {
    if Stores(p, s, e) then
      [Entry(e.w, s.calls[e.w].claim.fence, p.op(e.w)(s.calls[e.w].control).answer)]
    else []
  }

  /** The stores of a run, in the order in which they reached the table. */
  function Log<C, R>(p: Program<C, R>, s: Sys<C, R>, events: seq<Event<C>>): seq<Entry<R>> {
    if events == [] then []
    else
      Log(p, s, events[..|events| - 1]) + Logged(p, Run(p, s, events[..|events| - 1]), events[|events| - 1])
  }

  /** The serial execution: the logged calls' operations applied one after another. */
  function Serial<C, R>(p: Program<C, R>, control: C, log: seq<Entry<R>>): C {
    if log == [] then control
    else
      var before := Serial(p, control, log[..|log| - 1]);
      match p.op(log[|log| - 1].w)(before)
      case Done(next, _) => next
      case Refused(_) => before
  }

  /** Before any call: no lease is out, and the stored control plane has no terminal status. */
  predicate Start<C, R>(s: Sys<C, R>) {
    && s.calls == map[]
    && (LEASE in s.table ==> s.table[LEASE].lockedBy.None?)
    && (PLANE in s.table ==> !Terminal(s.table[PLANE].value))
  }

  predicate HoldsLock<C, R>(s: Sys<C, R>, claim: LeaseClaim) {
    LEASE in s.table && s.table[LEASE].lockedBy == Some(claim.owner) && s.table[LEASE].fence == claim.fence
  }

  predicate Unsaved<C, R>(phase: Phase<C, R>) {
    phase.Claimed? || phase.Loaded?
  }

  /** A call's claim is its own, a claim still owning the lock has seen every store, and a lock belongs to a call. */
  ghost predicate Inv<C, R>(p: Program<C, R>, s: Sys<C, R>, log: seq<Entry<R>>) {
    && (PLANE in s.table ==> !Terminal(s.table[PLANE].value))
    && (LEASE in s.table && s.table[LEASE].lockedBy.Some? ==> s.table[LEASE].lockedBy.value in s.calls)
    && (forall w :: w in s.calls && Unsaved(s.calls[w]) ==>
          && s.calls[w].claim.owner == w && s.calls[w].claim.key == LEASE
          && LEASE in s.table && s.calls[w].claim.fence <= s.table[LEASE].fence)
    && (forall w :: w in s.calls && s.calls[w].Loaded? && HoldsLock(s, s.calls[w].claim) ==>
          s.calls[w].control == Plane(p, s.table))
    && (forall w :: w in s.calls && Unsaved(s.calls[w]) && HoldsLock(s, s.calls[w].claim) ==>
          (log == [] || log[|log| - 1].fence < s.calls[w].claim.fence))
    && (log != [] ==> LEASE in s.table && log[|log| - 1].fence <= s.table[LEASE].fence)
  }

  /** A logged call is past its save, and reports nothing but the logged answer. */
  ghost predicate Consistent<C, R>(s: Sys<C, R>, entry: Entry<R>) {
    && entry.w in s.calls && !Unsaved(s.calls[entry.w])
    && match s.calls[entry.w]
       case Releasing(_, answer) => answer == Success(entry.answer)
       case Returned(answer) => answer == Success(entry.answer)
       case _ => true
  }

  predicate ReportsSuccess<C, R>(s: Sys<C, R>, w: Owner) {
    w in s.calls && (s.calls[w].Releasing? || s.calls[w].Returned?) && s.calls[w].answer.Success?
  }

  ghost predicate Listed<R>(log: seq<Entry<R>>, w: Owner) {
    exists i :: 0 <= i < |log| && log[i].w == w
  }

  /** Who is in the log, and what a logged call may have reported. */
  ghost predicate Reported<C, R>(s: Sys<C, R>, log: seq<Entry<R>>) {
    && (forall i :: 0 <= i < |log| ==> Consistent(s, log[i]))
    && (forall w :: ReportsSuccess(s, w) ==> Listed(log, w))
    && (forall i, j :: 0 <= i < j < |log| ==> log[i].w != log[j].w)
  }

  lemma KeysDiffer()
    ensures LEASE != PLANE
  {
    assert LEASE[8] != PLANE[8];
  }

  lemma InvKeptByStore<C, R>(p: Program<C, R>, s: Sys<C, R>, e: Event<C>, log: seq<Entry<R>>)
    requires Inv(p, s, log) && Stores(p, s, e)
    ensures Inv(p, Step(p, s, e), log + Logged(p, s, e))
    ensures s.calls[e.w].control == Plane(p, s.table)
    ensures Plane(p, Step(p, s, e).table) == p.op(e.w)(Plane(p, s.table)).control
    ensures log != [] ==> log[|log| - 1].fence < s.calls[e.w].claim.fence
  {
    KeysDiffer();
    var claim := s.calls[e.w].claim;
    var s' := Step(p, s, e);
    assert HoldsLock(s, claim);
    assert s'.table[LEASE] == s.table[LEASE];
    forall w | w in s'.calls && Unsaved(s'.calls[w])
      ensures w != e.w && s'.calls[w] == s.calls[w] && !HoldsLock(s', s'.calls[w].claim)
    {
    }
  }

  lemma InvKeptByBegin<C, R>(p: Program<C, R>, s: Sys<C, R>, w: Owner, log: seq<Entry<R>>)
    requires Inv(p, s, log)
    ensures Inv(p, Step(p, s, Begin(w)), log) && Plane(p, Step(p, s, Begin(w)).table) == Plane(p, s.table)
  {
    KeysDiffer();
    var s' := Step(p, s, Begin(w));
    if w !in s.calls && s'.calls[w].Claimed? {
      forall v | v in s.calls && Unsaved(s.calls[v])
        ensures !HoldsLock(s', s'.calls[v].claim)
      {
      }
    }
  }

  lemma InvKeptByRefusedSave<C, R>(p: Program<C, R>, s: Sys<C, R>, e: Event<C>, log: seq<Entry<R>>)
    requires Inv(p, s, log)
    requires e.Save? && !Stores(p, s, e)
    ensures Inv(p, Step(p, s, e), log) && Plane(p, Step(p, s, e).table) == Plane(p, s.table)
  {
    hide Holds;
  }

  lemma InvKeptBySilence<C, R>(p: Program<C, R>, s: Sys<C, R>, e: Event<C>, log: seq<Entry<R>>)
    requires Inv(p, s, log)
    requires e.Tick? || e.Load? || e.Crash? || e.Foreign?
    ensures Inv(p, Step(p, s, e), log) && Plane(p, Step(p, s, e).table) == Plane(p, s.table)
  {
  }

  lemma InvKeptByRenewal<C, R>(p: Program<C, R>, s: Sys<C, R>, w: Owner, log: seq<Entry<R>>)
    requires Inv(p, s, log)
    ensures Inv(p, Step(p, s, Renewal(w)), log) && Plane(p, Step(p, s, Renewal(w)).table) == Plane(p, s.table)
  {
    KeysDiffer();
  }

  lemma InvKeptByFinish<C, R>(p: Program<C, R>, s: Sys<C, R>, w: Owner, log: seq<Entry<R>>)
    requires Inv(p, s, log)
    ensures Inv(p, Step(p, s, Finish(w)), log) && Plane(p, Step(p, s, Finish(w)).table) == Plane(p, s.table)
  {
    KeysDiffer();
  }

  lemma InvKept<C, R>(p: Program<C, R>, s: Sys<C, R>, e: Event<C>, log: seq<Entry<R>>)
    requires Inv(p, s, log) && !Stores(p, s, e)
    ensures Inv(p, Step(p, s, e), log) && Plane(p, Step(p, s, e).table) == Plane(p, s.table)
  {
    match e {
      case Begin(w) => InvKeptByBegin(p, s, w, log);
      case Renewal(w) => InvKeptByRenewal(p, s, w, log);
      case Finish(w) => InvKeptByFinish(p, s, w, log);
      case Save(_) => InvKeptByRefusedSave(p, s, e, log);
      case _ => InvKeptBySilence(p, s, e, log);
    }
  }

  lemma ConsistentKept<C, R>(p: Program<C, R>, s: Sys<C, R>, e: Event<C>, entry: Entry<R>)
    requires Consistent(s, entry)
    ensures Consistent(Step(p, s, e), entry) && !(Stores(p, s, e) && e.w == entry.w)
  {
  }

  lemma NewlyConsistent<C, R>(p: Program<C, R>, s: Sys<C, R>, e: Event<C>)
    requires Stores(p, s, e)
    ensures Consistent(Step(p, s, e), Logged(p, s, e)[0])
  {
  }

  lemma SuccessBefore<C, R>(p: Program<C, R>, s: Sys<C, R>, e: Event<C>, w: Owner)
    requires ReportsSuccess(Step(p, s, e), w)
    ensures ReportsSuccess(s, w) || (Stores(p, s, e) && e.w == w)
  {
  }

  lemma ReportedKept<C, R>(p: Program<C, R>, s: Sys<C, R>, e: Event<C>, log: seq<Entry<R>>)
    requires Reported(s, log)
    ensures Reported(Step(p, s, e), log + Logged(p, s, e))
  {
    hide Step, Consistent, ReportsSuccess;
    var s', log' := Step(p, s, e), log + Logged(p, s, e);
    forall i | 0 <= i < |log'|
      ensures Consistent(s', log'[i])
    {
      if i < |log| {
        ConsistentKept(p, s, e, log[i]);
      } else {
        NewlyConsistent(p, s, e);
      }
    }
    forall i | 0 <= i < |log|
      ensures !(Stores(p, s, e) && e.w == log[i].w)
    {
      ConsistentKept(p, s, e, log[i]);
    }
    forall w | ReportsSuccess(s', w)
      ensures Listed(log', w)
    {
      SuccessBefore(p, s, e, w);
      if ReportsSuccess(s, w) {
        var i :| 0 <= i < |log| && log[i].w == w;
        assert log'[i].w == w;
      } else {
        assert log'[|log|].w == w;
      }
    }
  }

  /** Strictly increasing fences, and every logged answer is the one the serial execution gives. */
  ghost predicate SerialLog<C, R>(p: Program<C, R>, control: C, log: seq<Entry<R>>) {
    && (forall i, j :: 0 <= i < j < |log| ==> log[i].fence < log[j].fence)
    && (forall i :: 0 <= i < |log| ==> AnswersSerially(p, control, log[..i], log[i]))
  }

  /** The entry's operation, run after the earlier ones, succeeds with the logged answer. */
  ghost predicate AnswersSerially<C, R>(p: Program<C, R>, control: C, earlier: seq<Entry<R>>, entry: Entry<R>) {
    var outcome := p.op(entry.w)(Serial(p, control, earlier));
    outcome.Done? && outcome.answer == entry.answer
  }

  lemma SerialLogExtends<C, R>(p: Program<C, R>, control: C, log: seq<Entry<R>>, entry: Entry<R>)
    requires SerialLog(p, control, log)
    requires log != [] ==> log[|log| - 1].fence < entry.fence
    requires AnswersSerially(p, control, log, entry)
    ensures SerialLog(p, control, log + [entry])
  {
    hide AnswersSerially;
    var log' := log + [entry];
    assert log'[..|log|] == log;
    forall i | 0 <= i < |log'|
      ensures AnswersSerially(p, control, log'[..i], log'[i])
    {
      if i < |log| {
        assert log'[..i] == log[..i];
      }
    }
  }

  lemma SerialAppends<C, R>(p: Program<C, R>, control: C, log: seq<Entry<R>>, entry: Entry<R>)
    requires AnswersSerially(p, control, log, entry)
    ensures Serial(p, control, log + [entry]) == p.op(entry.w)(Serial(p, control, log)).control
  {
    assert (log + [entry])[..|log|] == log;
  }

  ghost predicate SerialSoFar<C, R>(p: Program<C, R>, control: C, s: Sys<C, R>, log: seq<Entry<R>>) {
    Plane(p, s.table) == Serial(p, control, log) && SerialLog(p, control, log) && Inv(p, s, log) && Reported(s, log)
  }

  lemma SerialKept<C, R>(p: Program<C, R>, control: C, s: Sys<C, R>, e: Event<C>, log: seq<Entry<R>>)
    requires SerialSoFar(p, control, s, log)
    ensures SerialSoFar(p, control, Step(p, s, e), log + Logged(p, s, e))
  {
    ReportedKept(p, s, e, log);
    if Stores(p, s, e) {
      InvKeptByStore(p, s, e, log);
      SerialLogExtends(p, control, log, Logged(p, s, e)[0]);
      SerialAppends(p, control, log, Logged(p, s, e)[0]);
    } else {
      InvKept(p, s, e, log);
      assert log + Logged(p, s, e) == log;
    }
  }

  /**
   Serializability. Whatever the interleaving, the stored control plane is the initial one with the
   logged operations run one after another, in strictly increasing fence order; a call that reports
   success is in the log once and reports what its operation answers in that serial execution; a
   call that reports an error is not in the log, so its save was never applied.
   */
  lemma {:induction false} Serializable<C, R>(p: Program<C, R>, s: Sys<C, R>, events: seq<Event<C>>)
    requires Start(s)
    ensures Plane(p, Run(p, s, events).table) == Serial(p, Plane(p, s.table), Log(p, s, events))
    ensures SerialLog(p, Plane(p, s.table), Log(p, s, events))
    ensures Reported(Run(p, s, events), Log(p, s, events))
    ensures SerialSoFar(p, Plane(p, s.table), Run(p, s, events), Log(p, s, events))
  {
    if events != [] {
      var before := events[..|events| - 1];
      Serializable(p, s, before);
      SerialKept(p, Plane(p, s.table), Run(p, s, before), events[|events| - 1], Log(p, s, before));
    }
  }

  predicate FencedOff<C, R>(s: Sys<C, R>, w: Owner, fence: nat) {
    && LEASE in s.table && fence < s.table[LEASE].fence
    && w in s.calls
    && (Unsaved(s.calls[w]) ==> s.calls[w].claim == LeaseClaim(LEASE, w, fence))
  }

  /** Once a newer claim exists, the older call stays shut out: nothing it does is stored in any continuation. */
  lemma {:induction false} StaleNeverStores<C, R>(p: Program<C, R>, s: Sys<C, R>, events: seq<Event<C>>, w: Owner, fence: nat)
    requires FencedOff(s, w, fence)
    ensures FencedOff(Run(p, s, events), w, fence)
    ensures forall i :: 0 <= i < |Log(p, s, events)| ==> Log(p, s, events)[i].w != w
  {
    if events != [] {
      KeysDiffer();
      var before := events[..|events| - 1];
      StaleNeverStores(p, s, before, w, fence);
      var mid := Run(p, s, before);
      assert !(Stores(p, mid, events[|events| - 1]) && events[|events| - 1].w == w);
    }
  }

  /** The lease was never taken or was given back, its holder's time is over, or it is the call's own. */
  predicate LeaseFree<C>(t: Table<C>, w: Owner, now: Time) {
    LEASE in t && t[LEASE].lockedUntil.Some? ==> t[LEASE].lockedUntil.value < now || t[LEASE].lockedBy == Some(w)
  }

  function Undisturbed<C, R>(p: Program<C, R>, s: Sys<C, R>, w: Owner, savedAt: Time): Sys<C, R> {
    Step(p, Step(p, Step(p, Step(p, Step(p, s, Begin(w)), Load(w)), Tick(savedAt)), Save(w)), Finish(w))
  }

  /**
   With the lease free and the save in time, an undisturbed call stores and answers its operation's
   result; a refusal leaves the control plane as it was; and the lease is given back.
   */
  lemma UndisturbedCallSucceeds<C, R>(p: Program<C, R>, s: Sys<C, R>, w: Owner, savedAt: Time)
    requires w !in s.calls && LeaseFree(s.table, w, s.clock) && (PLANE in s.table ==> !Terminal(s.table[PLANE].value))
    requires s.clock <= savedAt < s.clock + LEASE_SECONDS
    ensures var end := Undisturbed(p, s, w, savedAt);
            && LEASE in end.table && end.table[LEASE].lockedBy.None? && w in end.calls
            && match p.op(w)(Plane(p, s.table))
               case Done(next, reply) => end.calls[w] == Returned(Success(reply)) && Plane(p, end.table) == next
               case Refused(reason) => end.calls[w] == Returned(Failure(OperationRefused(reason))) && Plane(p, end.table) == Plane(p, s.table)
  {
    hide Step, ReadyToSave, Plane;
    UndisturbedLoad(p, s, w, savedAt);
    UndisturbedSave(p, Step(p, Step(p, s, Begin(w)), Load(w)), w, savedAt);
  }

  /** Claimed and loaded: the call holds the lease until its save, or is on its way out with the refusal. */
  ghost predicate ReadyToSave<C, R>(p: Program<C, R>, s: Sys<C, R>, w: Owner, savedAt: Time) {
    && s.clock <= savedAt && w in s.calls && (PLANE in s.table ==> !Terminal(s.table[PLANE].value))
    && match s.calls[w]
       case Loaded(claim, control) =>
         && claim.key == LEASE && Holds(s.table, claim, savedAt) && control == Plane(p, s.table) && p.op(w)(control).Done?
       case Releasing(claim, answer) =>
         && claim.key == LEASE && Holds(s.table, claim, savedAt)
         && p.op(w)(Plane(p, s.table)).Refused? && answer == Failure(OperationRefused(p.op(w)(Plane(p, s.table)).reason))
       case _ => false
  }

  lemma UndisturbedLoad<C, R>(p: Program<C, R>, s: Sys<C, R>, w: Owner, savedAt: Time)
    requires w !in s.calls && LeaseFree(s.table, w, s.clock) && (PLANE in s.table ==> !Terminal(s.table[PLANE].value))
    requires s.clock <= savedAt < s.clock + LEASE_SECONDS
    ensures var loaded := Step(p, Step(p, s, Begin(w)), Load(w));
            ReadyToSave(p, loaded, w, savedAt) && Plane(p, loaded.table) == Plane(p, s.table)
  {
    KeysDiffer();
  }

  lemma UndisturbedSave<C, R>(p: Program<C, R>, s: Sys<C, R>, w: Owner, savedAt: Time)
    requires ReadyToSave(p, s, w, savedAt)
    ensures var end := Step(p, Step(p, Step(p, s, Tick(savedAt)), Save(w)), Finish(w));
            && LEASE in end.table && end.table[LEASE].lockedBy.None? && w in end.calls
            && match p.op(w)(Plane(p, s.table))
               case Done(next, reply) => end.calls[w] == Returned(Success(reply)) && Plane(p, end.table) == next
               case Refused(reason) => end.calls[w] == Returned(Failure(OperationRefused(reason))) && Plane(p, end.table) == Plane(p, s.table)
  {
    KeysDiffer();
  }

  /**
   with_control as one worker runs it: claim, load, operate, guarded save, release. Run without
   interference it is exactly the sequence of steps Begin, Load, Save, Finish at its clock samples.
   */
  method WithControl<C, R>(p: Program<C, R>, store: StateTable<C>, w: Owner, claimedAt: Time, savedAt: Time)
    returns (answer: Result<R, CallError>)
    requires claimedAt <= savedAt
    modifies store
    ensures var begun := Step(p, Sys(claimedAt, old(store.rows), map[]), Begin(w));
            var loaded := Step(p, begun, Load(w));
            var saved := Step(p, Step(p, loaded, Tick(savedAt)), Save(w));
            var end := Step(p, saved, Finish(w));
            store.rows == end.table && w in end.calls && end.calls[w] == Returned(answer)
  {
    var claim := store.ClaimFenced(LEASE, w, claimedAt, LEASE_SECONDS);
    if claim.None? {
      return Failure(Contended);
    }
    var control := if PLANE in store.rows && store.rows[PLANE].value.Doc? then store.rows[PLANE].value.body else p.initial;
    match p.op(w)(control) {
      case Refused(reason) =>
        answer := Failure(OperationRefused(reason));
      case Done(next, reply) =>
        var written := store.SaveGuardedRow(claim.value, PLANE, Doc(None, next), savedAt);
        match written {
          case Applied => answer := Success(reply);
          case Superseded(_) => answer := Failure(Overtaken);
          case LeaseLost => answer := Failure(LostLease);
        }
    }
    store.ReleaseFenced(claim.value);
  }
}
