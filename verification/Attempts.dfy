/**
 Forget attempts of any number of workers, and the lease they contend for. The lease is an unfenced
 row per user: whoever comes after its time takes it over, and nothing stops the worker that held it
 from going on. Attempts of different users overlap at any time, attempts of one user after a lapse.
 */
module Attempts {
  import opened Wrappers
  import opened Memories
  import opened ForgetIntent
  import opened UserLease
  import F = Forget
  import Runs = MemoryRuns

  datatype Attempt = Attempt(req: F.Request, phase: F.Phase)

  datatype Sys<E> = Sys(
    db: Db<E>, checkpoints: map<(User, Id), F.Checkpoint>, attempts: map<Owner, Attempt>, leases: map<User, Lease>, clock: Time)

  /** Owners are fresh per call. Occupy and Vacate are the lease's other users, such as graph propagation. */
  datatype Event<E> =
    | Tick(now: Time)
    | Claim(w: Owner, req: F.Request)
    | Act(w: Owner, e: F.Event<E>)
    | Release(w: Owner)
    | Occupy(user: User, owner: Owner)
    | Vacate(user: User, owner: Owner)
    | Env(env: Runs.Event<E>)

  /** What an attempt works on: the tables, the checkpoints and its own place. */
  function View<E>(s: Sys<E>, w: Owner): F.Sys<E>
    requires w in s.attempts
  {
    F.Sys(s.db, s.checkpoints, s.attempts[w].phase)
  }

  predicate LeaseAdmits<E>(s: Sys<E>, user: User, owner: Owner) {
    Admits(RowOf(s, user), owner, s.clock)
  }

  function RowOf<E>(s: Sys<E>, user: User): Option<Lease> {
    if user in s.leases then Some(s.leases[user]) else None
  }

  predicate Finished(phase: F.Phase) {
    phase.Stopped? || phase.Answered?
  }

  function Without<E>(s: Sys<E>, user: User, owner: Owner): map<User, Lease> {
    if user in s.leases && s.leases[user].owner == owner then s.leases - {user} else s.leases
  }

  /** The attempt's step is its own to take. */
  predicate Acts<E>(s: Sys<E>, w: Owner, e: F.Event<E>) {
    w in s.attempts && !e.Env? && (e.Begin? ==> e.req == s.attempts[w].req)
  }

  function Acted<E>(s: Sys<E>, w: Owner, v: F.Sys<E>): Sys<E>
    requires w in s.attempts
  {
    s.(db := v.db, checkpoints := v.checkpoints, attempts := s.attempts[w := s.attempts[w].(phase := v.phase)])
  }

  function Step<E>(s: Sys<E>, e: Event<E>): Sys<E> {
    match e
    case Tick(now) => if s.clock <= now then s.(clock := now) else s
    case Claim(w, req) =>
      if w in s.attempts then s
      else if LeaseAdmits(s, req.user, w) then
        s.(attempts := s.attempts[w := Attempt(req, F.Idle)], leases := s.leases[req.user := Claimed(w, s.clock)])
      else s.(attempts := s.attempts[w := Attempt(req, F.Stopped)])
    case Act(w, act) => if Acts(s, w, act) then Acted(s, w, F.Step(View(s, w), act)) else s
    case Release(w) =>
      if w in s.attempts && Finished(s.attempts[w].phase) then s.(leases := Without(s, s.attempts[w].req.user, w)) else s
    case Occupy(user, owner) =>
      if owner !in s.attempts && LeaseAdmits(s, user, owner) then
        s.(leases := s.leases[user := Claimed(owner, s.clock)])
      else s
    case Vacate(user, owner) => if owner !in s.attempts then s.(leases := Without(s, user, owner)) else s
    case Env(env) => if F.EnvAllowed(env) then s.(db := Runs.Step(s.db, env)) else s
  }

  function Run<E>(s: Sys<E>, events: seq<Event<E>>): Sys<E> {
    if events == [] then s
    else Step(Run(s, events[..|events| - 1]), events[|events| - 1])
  }

  /** Before any forgetting: no attempt, no checkpoint, no forgotten row. */
  ghost predicate Start<E>(s: Sys<E>) {
    && Keyed(s.db) && s.checkpoints == map[] && s.attempts == map[]
    && (forall id :: id in s.db.memories ==> !F.Inactive(s.db.memories[id].record))
  }

  // ---- Over every run, lapsed leases included ----

  /** The attempt's phase is about its own request. */
  predicate Consistent(a: Attempt) {
    a.phase.Idle? || a.phase.Stopped? || a.phase.req == a.req
  }

  ghost predicate Intent<E>(s: Sys<E>) {
    && Keyed(s.db) && BlankRows(s.db) && CompletedSealed(F.Sys(s.db, s.checkpoints, F.Idle))
    && forall w :: w in s.attempts ==> Consistent(s.attempts[w]) && Prepared(View(s, w))
  }

  /** What no step takes back. */
  ghost predicate Lasts<E>(s: Sys<E>, s': Sys<E>) {
    Lasting(F.Sys(s.db, s.checkpoints, F.Idle), F.Sys(s'.db, s'.checkpoints, F.Idle))
  }

  lemma BaseOf<E>(s: Sys<E>, phase: F.Phase)
    requires Keyed(s.db) && BlankRows(s.db) && CompletedSealed(F.Sys(s.db, s.checkpoints, F.Idle))
    ensures Base(F.Sys(s.db, s.checkpoints, phase))
  {
    hide Sealed, BlankRows, Keyed;
  }

  lemma BaseBack<E>(v: F.Sys<E>)
    requires Base(v)
    ensures Keyed(v.db) && BlankRows(v.db) && CompletedSealed(F.Sys(v.db, v.checkpoints, F.Idle))
  {
    hide Sealed, BlankRows, Keyed;
  }

  lemma LastingPhases<E>(s: F.Sys<E>, s': F.Sys<E>, phase: F.Phase, phase': F.Phase)
    requires Lasting(s, s')
    ensures Lasting(s.(phase := phase), s'.(phase := phase'))
  {
  }

  /** The other attempts are as prepared as they were. */
  lemma OthersPrepared<E>(s: Sys<E>, s': Sys<E>, v: Owner)
    requires Lasts(s, s') && v in s.attempts && v in s'.attempts && s'.attempts[v] == s.attempts[v]
    requires Prepared(View(s, v))
    ensures Prepared(View(s', v))
  {
    hide Lasting, Prepared;
    LastingPhases(F.Sys(s.db, s.checkpoints, F.Idle), F.Sys(s'.db, s'.checkpoints, F.Idle), s.attempts[v].phase, s.attempts[v].phase);
    PreparedLasts(View(s, v), View(s', v));
  }

  lemma ActConsistent<E>(v: F.Sys<E>, e: F.Event<E>, req: F.Request)
    requires Consistent(Attempt(req, v.phase)) && !e.Env? && (e.Begin? ==> e.req == req)
    ensures Consistent(Attempt(req, F.Step(v, e).phase))
  {
    hide F.Protect, F.Shares, F.SoftDelete, F.RedactIf, Commit, CommitAdmits, F.Settled, F.ResolvedCheckpoint;
  }

  lemma ActIntent<E>(s: Sys<E>, w: Owner, e: F.Event<E>)
    requires Intent(s) && Acts(s, w, e)
    ensures Intent(Step(s, Act(w, e))) && Lasts(s, Step(s, Act(w, e)))
  {
    hide F.Step, Base, Prepared, Lasting, Keyed, BlankRows, CompletedSealed, Consistent;
    var v, s' := View(s, w), Step(s, Act(w, e));
    var v' := F.Step(v, e);
    BaseOf(s, v.phase);
    StepPrepares(v, e);
    BaseBack(v');
    ActConsistent(v, e, s.attempts[w].req);
    LastingPhases(v, v', F.Idle, F.Idle);
    assert View(s', w) == v';
    forall u | u in s'.attempts
      ensures Consistent(s'.attempts[u]) && Prepared(View(s', u))
    {
      if u != w {
        OthersPrepared(s, s', u);
      }
    }
  }

  lemma EnvIntent<E>(s: Sys<E>, env: Runs.Event<E>)
    requires Intent(s) && F.EnvAllowed(env)
    ensures Intent(Step(s, Env(env))) && Lasts(s, Step(s, Env(env)))
  {
    hide F.Step, Runs.Step, F.EnvAllowed, Base, Prepared, Lasting, Keyed, BlankRows, CompletedSealed, Consistent;
    var v, s' := F.Sys(s.db, s.checkpoints, F.Idle), Step(s, Env(env));
    BaseOf(s, F.Idle);
    EnvLasts(v, env);
    EnvView(v, env);
    BaseBack(F.Step(v, F.Env(env)));
    forall u | u in s'.attempts
      ensures Consistent(s'.attempts[u]) && Prepared(View(s', u))
    {
      OthersPrepared(s, s', u);
    }
  }

  lemma EnvView<E>(v: F.Sys<E>, env: Runs.Event<E>)
    requires F.EnvAllowed(env)
    ensures F.Step(v, F.Env(env)) == v.(db := Runs.Step(v.db, env))
  {
    hide Runs.Step, F.EnvAllowed;
  }

  lemma LastsItself<E>(s: Sys<E>, s': Sys<E>)
    requires s'.db == s.db && s'.checkpoints == s.checkpoints
    ensures Lasts(s, s')
  {
  }

  lemma StepIntent<E>(s: Sys<E>, e: Event<E>)
    requires Intent(s)
    ensures Intent(Step(s, e)) && Lasts(s, Step(s, e))
  {
    hide F.Step, Runs.Step, F.EnvAllowed, Lasts, Keyed, BlankRows, CompletedSealed, Prepared, Consistent;
    if e.Act? && Acts(s, e.w, e.e) {
      ActIntent(s, e.w, e.e);
    } else if e.Env? && F.EnvAllowed(e.env) {
      EnvIntent(s, e.env);
    } else {
      var s' := Step(s, e);
      LastsItself(s, s');
      forall u | u in s'.attempts
        ensures Consistent(s'.attempts[u]) && Prepared(View(s', u))
      {
        if u in s.attempts {
          assert s'.attempts[u] == s.attempts[u] && View(s', u) == View(s, u);
        } else {
          FreshPrepared(s', u);
        }
      }
    }
  }

  lemma FreshPrepared<E>(s: Sys<E>, w: Owner)
    requires w in s.attempts && (s.attempts[w].phase.Idle? || s.attempts[w].phase.Stopped?)
    ensures Consistent(s.attempts[w]) && Prepared(View(s, w))
  {
  }

  lemma {:induction false} RunIntent<E>(s: Sys<E>, events: seq<Event<E>>)
    requires Intent(s)
    ensures Intent(Run(s, events)) && Lasts(s, Run(s, events))
  {
    hide Intent, Step, Lasts;
    if events == [] {
      LastsItself(s, s);
    } else {
      RunIntent(s, events[..|events| - 1]);
      StepIntent(Run(s, events[..|events| - 1]), events[|events| - 1]);
      LastsOn(s, Run(s, events[..|events| - 1]), Run(s, events));
    }
  }

  lemma LastsOn<E>(a: Sys<E>, b: Sys<E>, c: Sys<E>)
    requires Lasts(a, b) && Lasts(b, c)
    ensures Lasts(a, c)
  {
  }

  // ---- Attempts that write in time ----

  /** The worker is within its lease. */
  predicate Holds<E>(s: Sys<E>, w: Owner) {
    && w in s.attempts && s.attempts[w].req.user in s.leases
    && s.leases[s.attempts[w].req.user].owner == w && s.clock < s.leases[s.attempts[w].req.user].until
  }

  /** Steps that write a checkpoint, a tombstone or a row. */
  predicate Writes<E>(e: F.Event<E>) {
    e.SaveIntent? || e.Mark? || e.Resolve? || e.Update? || e.Cascade? || e.Scrub? || e.Settle?
  }

  predicate OnTime<E>(s: Sys<E>, e: Event<E>) {
    e.Act? && Writes(e.e) && e.w in s.attempts ==> Holds(s, e.w)
  }

  /** No attempt of the run writes after its lease lapsed. */
  predicate AllOnTime<E>(s: Sys<E>, events: seq<Event<E>>) {
    events != [] ==>
      AllOnTime(s, events[..|events| - 1]) && OnTime(Run(s, events[..|events| - 1]), events[|events| - 1])
  }

  ghost predicate Durable<E>(s: Sys<E>) {
    var v := F.Sys(s.db, s.checkpoints, F.Idle);
    Keyed(s.db) && F.CheckpointsInv(v) && F.Explained(v)
  }

  ghost predicate Inv<E>(s: Sys<E>) {
    && Durable(s)
    && forall w :: w in s.attempts ==> Consistent(s.attempts[w]) && (Holds(s, w) ==> F.PhaseInv(View(s, w)))
  }

  lemma DurableView<E>(s: Sys<E>, phase: F.Phase)
    ensures Durable(s) <==> Keyed(s.db) && F.CheckpointsInv(F.Sys(s.db, s.checkpoints, phase)) && F.Explained(F.Sys(s.db, s.checkpoints, phase))
  {
    var v, v' := F.Sys(s.db, s.checkpoints, F.Idle), F.Sys(s.db, s.checkpoints, phase);
    hide F.AllAcknowledged, F.Live, F.Marked, Tombstoned;
    assert forall user, id :: F.Completed(v, user, id) <==> F.Completed(v', user, id);
  }

  /** Nothing of the user's changed. */
  ghost predicate SameFor<E>(v: F.Sys<E>, v': F.Sys<E>, user: User) {
    && (forall id :: id in v.db.memories && v.db.memories[id].record.user == user ==> id in v'.db.memories && v'.db.memories[id] == v.db.memories[id])
    && (forall id :: id in v'.db.memories && v'.db.memories[id].record.user == user ==> id in v.db.memories && v.db.memories[id].record.user == user)
    && (forall source :: (user, source) in v.db.tombstones ==> (user, source) in v'.db.tombstones)
    && (forall id :: ((user, id) in v.checkpoints <==> (user, id) in v'.checkpoints)
                     && ((user, id) in v.checkpoints && (user, id) in v'.checkpoints ==> v.checkpoints[(user, id)] == v'.checkpoints[(user, id)]))
  }

  lemma RowFrame<E>(v: F.Sys<E>, v': F.Sys<E>, user: User, id: Id, r: Record, sources: seq<Source>)
    requires SameFor(v, v', user)
    ensures F.Advances(v.db, user, id, r) ==> F.Advances(v'.db, user, id, r)
    ensures F.Follows(v.db, user, id, r) ==> F.Follows(v'.db, user, id, r)
    ensures F.Forgotten(v, user, id) ==> F.Forgotten(v', user, id) && v'.db.memories[id] == v.db.memories[id]
    ensures F.Live(v'.db, user, sources, id) ==> F.Live(v.db, user, sources, id)
  {
    hide F.Shares, F.Rank;
  }

  lemma PropagatingFrame<E>(v: F.Sys<E>, v': F.Sys<E>, req: F.Request, c: F.Checkpoint, sources: seq<Source>, listed: map<Id, Record>, failed: bool)
    requires F.PropagatingInv(v, req, c, sources, listed, failed) && SameFor(v, v', req.user)
    ensures F.PropagatingInv(v', req, c, sources, listed, failed)
  {
    hide F.Advances, F.Live, F.Shares;
    var r := v.db.memories[req.id].record;
    RowFrame(v, v', req.user, req.id, r, sources);
    forall id | id in listed
      ensures F.Advances(v'.db, req.user, id, listed[id])
    {
      RowFrame(v, v', req.user, id, listed[id], sources);
    }
    forall id | F.Live(v'.db, req.user, sources, id)
      ensures F.Live(v.db, req.user, sources, id) && id in v.db.memories
    {
      RowFrame(v, v', req.user, id, r, sources);
      LiveRow(v.db, req.user, sources, id);
    }
  }

  lemma LiveRow<E>(db: Db<E>, user: User, sources: seq<Source>, id: Id)
    requires F.Live(db, user, sources, id)
    ensures id in db.memories
  {
  }

  lemma PhaseFrame<E>(v: F.Sys<E>, v': F.Sys<E>, user: User)
    requires F.PhaseInv(v) && SameFor(v, v', user) && v'.phase == v.phase
    requires v.phase.Idle? || v.phase.Stopped? || v.phase.req.user == user
    ensures F.PhaseInv(v')
  {
    match v.phase {
      case Deciding(req, _, r) => RowFrame(v, v', user, req.id, r, []);
      case Intending(req, r, _) => RowFrame(v, v', user, req.id, r, []);
      case Marking(req, r, _, _) => RowFrame(v, v', user, req.id, r, []);
      case Updating(req, r, _) => RowFrame(v, v', user, req.id, r, []);
      case Updated(req, _) => RowFrame(v, v', user, req.id, v.db.memories[req.id].record, []);
      case Propagating(req, c, sources, listed, failed) => PropagatingFrame(v, v', req, c, sources, listed, failed);
      case Answered(req, c) => AnsweredFrame(v, v', req, c);
      case _ =>
    }
    hide F.PropagatingInv, F.Advances, F.Follows, F.Forgotten;
  }

  lemma AnsweredFrame<E>(v: F.Sys<E>, v': F.Sys<E>, req: F.Request, c: F.Checkpoint)
    requires F.AnsweredInv(v, req, c) && SameFor(v, v', req.user)
    ensures F.AnsweredInv(v', req, c)
  {
  }

  /** An attempt touches nothing of another user's. */
  lemma ActElsewhere<E>(v: F.Sys<E>, e: F.Event<E>, req: F.Request, user: User)
    requires Base(v) && Prepared(v) && Consistent(Attempt(req, v.phase)) && !e.Env? && req.user != user
    ensures SameFor(v, F.Step(v, e), user)
  {
    hide Base, Keyed;
    match e {
      case Update(logical, evidence) =>
        if v.phase.Updating? {
          CommitElsewhere(v, F.Step(v, e), logical, v.phase.r, evidence, user);
        }
      case Cascade(id, now, logical, evidence) =>
        if v.phase.Propagating? && id in v.phase.listed {
          F.DerivedRecord(v.phase.listed[id], v.phase.req.redact, now);
          CommitElsewhere(v, F.Step(v, e), logical, F.RedactIf(F.SoftDelete(v.phase.listed[id], now), v.phase.req.redact, now), evidence, user);
        }
      case _ => QuietElsewhere(v, e, req, user);
    }
  }

  lemma CommitElsewhere<E>(v: F.Sys<E>, v': F.Sys<E>, logical: string, r: Record, evidence: E, user: User)
    requires r.user != user && v'.checkpoints == v.checkpoints
    requires v'.db == v.db || v'.db == Commit(v.db, logical, r, evidence)
    ensures SameFor(v, v', user)
  {
    hide RouteAdmits, Tombstoned, Storable;
  }

  lemma QuietElsewhere<E>(v: F.Sys<E>, e: F.Event<E>, req: F.Request, user: User)
    requires Consistent(Attempt(req, v.phase)) && !e.Env? && !e.Update? && !e.Cascade? && req.user != user
    ensures SameFor(v, F.Step(v, e), user)
  {
    hide F.Protect, F.Shares, F.Settled, F.ResolvedCheckpoint, F.SoftDelete, F.RedactIf, F.CompletedFor;
  }

  lemma SameForPhases<E>(v: F.Sys<E>, v': F.Sys<E>, user: User, phase: F.Phase, phase': F.Phase)
    requires SameFor(v, v', user)
    ensures SameFor(v.(phase := phase), v'.(phase := phase'), user)
  {
  }

  lemma HolderInv<E>(s: Sys<E>, w: Owner)
    requires Inv(s) && Holds(s, w)
    ensures F.Inv(View(s, w))
  {
    hide F.PhaseInv, F.CheckpointsInv, F.Explained, Durable;
    DurableView(s, s.attempts[w].phase);
  }

  /** Two workers within their leases serve different users. */
  lemma HoldersDiffer<E>(s: Sys<E>, w: Owner, u: Owner)
    requires Holds(s, w) && Holds(s, u) && w != u
    ensures s.attempts[w].req.user != s.attempts[u].req.user
  {
  }

  lemma ActInTime<E>(s: Sys<E>, w: Owner, e: F.Event<E>)
    requires Inv(s) && Intent(s) && Acts(s, w, e) && Holds(s, w)
    ensures Inv(Step(s, Act(w, e)))
  {
    hide F.Step, F.PhaseInv, F.CheckpointsInv, F.Explained, Durable, Prepared, Base, SameFor, Keyed, BlankRows, CompletedSealed, Consistent, Acts;
    var v, s' := View(s, w), Step(s, Act(w, e));
    var v' := F.Step(v, e);
    HolderInv(s, w);
    F.StepKept(v, e);
    BaseOf(s, v.phase);
    ActsMeans(s, w, e);
    ActConsistent(v, e, s.attempts[w].req);
    assert View(s', w) == v';
    DurableView(s', v'.phase);
    forall u | u in s'.attempts
      ensures Consistent(s'.attempts[u]) && (Holds(s', u) ==> F.PhaseInv(View(s', u)))
    {
      if u != w && Holds(s', u) {
        assert Holds(s, u);
        HoldersDiffer(s, w, u);
        ActElsewhere(v, e, s.attempts[w].req, s.attempts[u].req.user);
        SameForPhases(v, v', s.attempts[u].req.user, s.attempts[u].phase, s.attempts[u].phase);
        ConsistentUser(s.attempts[u]);
        PhaseFrame(View(s, u), View(s', u), s.attempts[u].req.user);
      }
    }
  }

  lemma ActsMeans<E>(s: Sys<E>, w: Owner, e: F.Event<E>)
    requires Acts(s, w, e)
    ensures Step(s, Act(w, e)) == Acted(s, w, F.Step(View(s, w), e)) && !e.Env? && (e.Begin? ==> e.req == s.attempts[w].req)
  {
    hide F.Step;
  }

  lemma ConsistentUser(a: Attempt)
    requires Consistent(a)
    ensures a.phase.Idle? || a.phase.Stopped? || a.phase.req.user == a.req.user
  {
  }

  /** Reads change nothing that others see. */
  lemma ReadsOnly<E>(v: F.Sys<E>, e: F.Event<E>)
    requires !Writes(e) && !e.Env?
    ensures F.Step(v, e).db == v.db && F.Step(v, e).checkpoints == v.checkpoints
  {
    hide F.Protect, F.Shares, F.SoftDelete, F.CompletedFor;
  }

  /** A step that leaves tables, checkpoints and the attempts within their leases alone. */
  lemma QuietInv<E>(s: Sys<E>, s': Sys<E>)
    requires Inv(s) && s'.db == s.db && s'.checkpoints == s.checkpoints
    requires forall u :: u in s'.attempts ==> Consistent(s'.attempts[u])
    requires forall u :: Holds(s', u) ==>
               s'.attempts[u].phase.Idle? || s'.attempts[u].phase.Stopped? || (Holds(s, u) && s'.attempts[u] == s.attempts[u])
    ensures Inv(s')
  {
    hide F.CheckpointsInv, F.Explained, Holds, Consistent;
    forall u | u in s'.attempts && Holds(s', u)
      ensures F.PhaseInv(View(s', u))
    {
      if s'.attempts[u].phase.Idle? || s'.attempts[u].phase.Stopped? {
        FreshPhase(s', u);
      } else {
        HoldsIn(s, u);
        assert View(s', u) == View(s, u);
      }
    }
    hide F.PhaseInv;
  }

  lemma HoldsIn<E>(s: Sys<E>, w: Owner)
    requires Holds(s, w)
    ensures w in s.attempts
  {
  }

  lemma FreshPhase<E>(s: Sys<E>, w: Owner)
    requires w in s.attempts && (s.attempts[w].phase.Idle? || s.attempts[w].phase.Stopped?)
    ensures F.PhaseInv(View(s, w))
  {
  }

  lemma LateRead<E>(s: Sys<E>, w: Owner, e: F.Event<E>)
    requires Inv(s) && Acts(s, w, e) && !Holds(s, w) && !Writes(e)
    ensures Inv(Step(s, Act(w, e)))
  {
    hide F.Step, F.PhaseInv, Durable;
    var s' := Step(s, Act(w, e));
    ActsMeans(s, w, e);
    ReadsOnly(View(s, w), e);
    ActConsistent(View(s, w), e, s.attempts[w].req);
    hide Inv;
    assert forall u :: u in s'.attempts && u != w ==> u in s.attempts && s'.attempts[u] == s.attempts[u];
    ConsistentAll(s);
    QuietInv(s, s');
  }

  lemma ConsistentAll<E>(s: Sys<E>)
    requires Inv(s)
    ensures forall u :: u in s.attempts ==> Consistent(s.attempts[u])
  {
  }

  lemma EnvInTime<E>(s: Sys<E>, env: Runs.Event<E>)
    requires Inv(s) && F.EnvAllowed(env)
    ensures Inv(Step(s, Env(env)))
  {
    hide F.Step, Runs.Step, F.EnvAllowed, F.PhaseInv, F.CheckpointsInv, F.Explained, Keyed, Consistent;
    var s' := Step(s, Env(env));
    IdleInv(F.Sys(s.db, s.checkpoints, F.Idle));
    F.StepKept(F.Sys(s.db, s.checkpoints, F.Idle), F.Env(env));
    EnvView(F.Sys(s.db, s.checkpoints, F.Idle), env);
    forall u | u in s'.attempts
      ensures Consistent(s'.attempts[u]) && (Holds(s', u) ==> F.PhaseInv(View(s', u)))
    {
      if Holds(s', u) {
        assert Holds(s, u);
        HolderInv(s, u);
        F.StepKept(View(s, u), F.Env(env));
        EnvView(View(s, u), env);
      }
    }
  }

  lemma IdleInv<E>(v: F.Sys<E>)
    requires v.phase.Idle? && Keyed(v.db) && F.CheckpointsInv(v) && F.Explained(v)
    ensures F.Inv(v)
  {
  }

  lemma LeaseInTime<E>(s: Sys<E>, e: Event<E>)
    requires Inv(s) && !e.Act? && !e.Env?
    ensures Inv(Step(s, e))
  {
    hide F.PhaseInv, Durable;
    ConsistentAll(s);
    hide Inv;
    QuietInv(s, Step(s, e));
  }

  lemma StepInv<E>(s: Sys<E>, e: Event<E>)
    requires Inv(s) && Intent(s) && OnTime(s, e)
    ensures Inv(Step(s, e))
  {
    hide Inv, Intent, F.Step, Runs.Step, F.EnvAllowed, Holds;
    if e.Act? {
      if Acts(s, e.w, e.e) {
        if Holds(s, e.w) {
          ActInTime(s, e.w, e.e);
        } else {
          LateRead(s, e.w, e.e);
        }
      }
    } else if e.Env? {
      if F.EnvAllowed(e.env) {
        EnvInTime(s, e.env);
      }
    } else {
      LeaseInTime(s, e);
    }
  }

  lemma {:induction false} RunInv<E>(s: Sys<E>, events: seq<Event<E>>)
    requires Inv(s) && Intent(s) && AllOnTime(s, events)
    ensures Inv(Run(s, events)) && Intent(Run(s, events))
  {
    hide Inv, Intent, Step, OnTime;
    if events != [] {
      RunInv(s, events[..|events| - 1]);
      StepInv(Run(s, events[..|events| - 1]), events[|events| - 1]);
      StepIntent(Run(s, events[..|events| - 1]), events[|events| - 1]);
    }
  }

  lemma StartHolds<E>(s: Sys<E>)
    requires Start(s)
    ensures Inv(s) && Intent(s)
  {
  }
}
