/**
 The outbox workers that carry graph plans into the graph database: load the plan, replace the memory's
 contribution, acknowledge the plan's revision; or clear the contribution of a memory found hidden. A
 user's propagation is leased without a fence, so a worker whose lease has lapsed may still write; it
 may stop between any two writes, and every other transaction may run at any point.
 */
module GraphSync {
  import opened Wrappers
  import opened Memories
  import opened GraphModel
  import opened GraphStore
  import Runs = MemoryRuns
  import Cutover

  type Plans = seq<GraphEdge>

  type Worker = string

  /** `mark` is the first revision that was not there yet when the memory was found hidden. */
  datatype Phase =
    | Loaded(user: User, id: Id, revision: nat, es: seq<GraphEdge>)
    | Installed(user: User, id: Id, revision: nat)
    | Clearing(user: User, id: Id, mark: nat)

  /** The holder of a user's lease is the worker that claimed it last. */
  datatype Sys = Sys(db: Db<Plans>, edges: Edges, phases: map<Worker, Phase>, holders: map<User, Worker>)

  /** Redact is the forget workflow's own removal of a memory's edges. */
  datatype Event =
    | Load(w: Worker, user: User, id: Id)
    | Write(w: Worker)
    | Confirm(w: Worker)
    | Clear(w: Worker)
    | Stop(w: Worker)
    | Redact(user: User, id: Id)
    | Env(e: Runs.Event<Plans>)

  /** What an ingestion or a replay plans: scored edges, one per triple. */
  predicate Plannable(es: seq<GraphEdge>) {
    Scored(es) && DistinctTriples(es)
  }

  /** Everyone but the workers: never an acknowledgement. */
  predicate EnvAllowed(e: Runs.Event<Plans>) {
    match e
    case Acknowledged(_, _, _) => false
    case Committed(_, _, es) => Plannable(es)
    case Replayed(_, es, _) => Plannable(es)
    case _ => true
  }

  /** A load may take the lease over at any time, as it may have lapsed at any time. */
  function Step(tenant: string, s: Sys, e: Event): Sys {
    match e
    case Load(w, user, id) =>
      if w in s.phases || !(id in s.db.memories && s.db.memories[id].record.user == user) then s
      else
        var claimed := s.(holders := s.holders[user := w]);
        if !Visible(s.db, user, id) then claimed.(phases := s.phases[w := Clearing(user, id, s.db.nextRevision)])
        else if (user, id) in s.db.plans && s.db.plans[(user, id)].version == SourceVersion(s.db.memories[id].record) then
          claimed.(phases := s.phases[w := Loaded(user, id, s.db.plans[(user, id)].revision, s.db.plans[(user, id)].evidence)])
        else claimed
    case Write(w) =>
      if w in s.phases && s.phases[w].Loaded? then
        var p := s.phases[w];
        s.(edges := Replace(s.edges, Scope(tenant, p.user), p.id, p.es), phases := s.phases[w := Installed(p.user, p.id, p.revision)])
      else s
    case Confirm(w) =>
      if w in s.phases && s.phases[w].Installed? then
        s.(db := Acknowledge(s.db, s.phases[w].user, s.phases[w].id, s.phases[w].revision), phases := s.phases - {w})
      else s
    case Clear(w) =>
      if w in s.phases && s.phases[w].Clearing? then
        s.(edges := RemoveMemory(s.edges, Scope(tenant, s.phases[w].user), s.phases[w].id), phases := s.phases - {w})
      else s
    case Stop(w) => s.(phases := s.phases - {w})
    case Redact(user, id) => s.(edges := RemoveMemory(s.edges, Scope(tenant, user), id))
    case Env(env) => if EnvAllowed(env) then s.(db := Runs.Step(s.db, env)) else s
  }

  function Run(tenant: string, s: Sys, events: seq<Event>): Sys {
    if events == [] then s
    else Step(tenant, Run(tenant, s, events[..|events| - 1]), events[|events| - 1])
  }

  /** The worker still has its user's lease. */
  predicate Holds(s: Sys, w: Worker) {
    w in s.phases && s.phases[w].user in s.holders && s.holders[s.phases[w].user] == w
  }

  /** A replacement by a worker that has lost its lease. */
  predicate LateWrite(s: Sys, e: Event) {
    e.Write? && e.w in s.phases && !Holds(s, e.w)
  }

  /** A removal by a worker that has lost its lease, or by a forget that finds the memory readable. */
  predicate StrayRemoval(s: Sys, e: Event) {
    (e.Clear? && e.w in s.phases && !Holds(s, e.w)) || (e.Redact? && Visible(s.db, e.user, e.id))
  }

  /** A row written without a plan. */
  predicate BareUpsert(e: Event) {
    e.Env? && e.e.Upserted?
  }

  /** Runs that may hold late writes, stray removals and bare upserts. */
  predicate Within(tenant: string, s: Sys, events: seq<Event>, late: bool, stray: bool, bare: bool) {
    events != [] ==>
      var before, e := Run(tenant, s, events[..|events| - 1]), events[|events| - 1];
      && Within(tenant, s, events[..|events| - 1], late, stray, bare)
      && (late || !LateWrite(before, e)) && (stray || !StrayRemoval(before, e)) && (bare || !BareUpsert(e))
  }

  // ---- The graph and the plan ----

  /** Whatever the graph says about the memory, these edges propose. */
  ghost predicate Covered(tenant: string, edges: Edges, user: User, id: Id, es: seq<GraphEdge>) {
    forall k: EdgeKey :: k.scope == Scope(tenant, user) && EvidenceIn(edges, k, id).Some? ==>
      EvidenceIn(edges, k, id) == Proposed(k.scope, es, k)
  }

  /** The graph says about the memory exactly what these edges propose. */
  ghost predicate Exact(tenant: string, edges: Edges, user: User, id: Id, es: seq<GraphEdge>) {
    forall k: EdgeKey :: k.scope == Scope(tenant, user) ==> EvidenceIn(edges, k, id) == Proposed(k.scope, es, k)
  }

  ghost predicate Agrees(tenant: string, s: Sys, user: User, id: Id, es: seq<GraphEdge>, exact: bool) {
    if exact then Exact(tenant, s.edges, user, id, es) || !Visible(s.db, user, id) else Covered(tenant, s.edges, user, id, es)
  }

  predicate Applied(plan: Plan<Plans>) {
    plan.applied == Some(plan.revision)
  }

  /** The first revision the worker knows nothing of. */
  function Mark(p: Phase): nat {
    if p.Clearing? then p.mark else p.revision + 1
  }

  ghost predicate PlanInv(tenant: string, s: Sys, user: User, id: Id, exact: bool)
    requires (user, id) in s.db.plans
  {
    var plan := s.db.plans[(user, id)];
    && Plannable(plan.evidence) && plan.revision < s.db.nextRevision
    && (plan.applied.Some? ==> plan.applied.value <= plan.revision)
    && id in s.db.memories && s.db.memories[id].record.user == user
    && (Applied(plan) ==> Agrees(tenant, s, user, id, plan.evidence, exact))
  }

  /** What a worker's phase says about the current plan. */
  ghost predicate PlanFits(tenant: string, s: Sys, p: Phase, plan: Plan<Plans>, exact: bool) {
    match p
    case Loaded(_, _, revision, es) => revision <= plan.revision && (plan.revision == revision ==> plan.evidence == es)
    case Installed(user, id, revision) => revision <= plan.revision && (plan.revision == revision ==> Agrees(tenant, s, user, id, plan.evidence, exact))
    case Clearing(user, id, mark) => exact && plan.revision < mark ==> !Visible(s.db, user, id)
  }

  /** What any worker may rely on, lease or no lease. */
  ghost predicate WorkerInv(tenant: string, s: Sys, w: Worker, exact: bool)
    requires w in s.phases
  {
    var p := s.phases[w];
    && Mark(p) <= s.db.nextRevision
    && (p.Loaded? ==> Plannable(p.es))
    && ((p.user, p.id) in s.db.plans ==> PlanFits(tenant, s, p, s.db.plans[(p.user, p.id)], exact))
  }

  /** Who holds the lease knows the newest revision that any worker on the memory knows, and no newer one is acknowledged. */
  predicate HolderInv(s: Sys, w: Worker)
    requires w in s.phases
  {
    var p := s.phases[w];
    && ((p.user, p.id) in s.db.plans && Mark(p) <= s.db.plans[(p.user, p.id)].revision ==> !Applied(s.db.plans[(p.user, p.id)]))
    && forall u :: u in s.phases && !s.phases[u].Clearing? && s.phases[u].user == p.user && s.phases[u].id == p.id ==> Mark(s.phases[u]) <= Mark(p)
  }

  ghost predicate Inv(tenant: string, s: Sys, exact: bool) {
    && ValidEdges(s.edges) && Keyed(s.db)
    && (forall user, id :: (user, id) in s.db.plans ==> PlanInv(tenant, s, user, id, exact))
    && (forall w :: w in s.phases ==> WorkerInv(tenant, s, w, exact))
    && (forall w :: w in s.phases && Holds(s, w) ==> HolderInv(s, w))
  }

  /** No plan, nobody at work, any well-formed graph. */
  ghost predicate Start(s: Sys) {
    s.db.plans == map[] && s.phases == map[] && s.holders == map[] && ValidEdges(s.edges) && Keyed(s.db)
  }

  // ---- Every step keeps the invariant ----

  lemma LoadWorker(tenant: string, s: Sys, w: Worker, user: User, id: Id, exact: bool, u: Worker)
    requires Inv(tenant, s, exact) && u in Step(tenant, s, Load(w, user, id)).phases
    ensures WorkerInv(tenant, Step(tenant, s, Load(w, user, id)), u, exact)
  {
    hide ValidEdges, Keyed, Agrees, Plannable, Visible, SourceVersion, HolderInv;
    SameAgreement(tenant, s, Step(tenant, s, Load(w, user, id)), exact);
    if u in s.phases {
      assert WorkerInv(tenant, s, u, exact);
    } else if (user, id) in s.db.plans {
      assert PlanInv(tenant, s, user, id, exact);
    }
    hide Inv;
  }

  lemma SameAgreement(tenant: string, s: Sys, s': Sys, exact: bool)
    requires s'.db == s.db && s'.edges == s.edges
    ensures forall u, i, es :: Agrees(tenant, s', u, i, es, exact) <==> Agrees(tenant, s, u, i, es, exact)
  {
    hide Covered, Exact, Visible;
  }

  lemma LoadKept(tenant: string, s: Sys, w: Worker, user: User, id: Id, exact: bool)
    requires Inv(tenant, s, exact)
    ensures Inv(tenant, Step(tenant, s, Load(w, user, id)), exact)
  {
    hide ValidEdges, Keyed, Agrees, Plannable, Visible, SourceVersion;
    var s' := Step(tenant, s, Load(w, user, id));
    SameAgreement(tenant, s, s', exact);
    forall u, i | (u, i) in s'.db.plans
      ensures PlanInv(tenant, s', u, i, exact)
    {
      assert PlanInv(tenant, s, u, i, exact);
    }
    forall u | u in s'.phases
      ensures WorkerInv(tenant, s', u, exact)
    {
      LoadWorker(tenant, s, w, user, id, exact, u);
    }
    forall u | u in s'.phases && Holds(s', u)
      ensures HolderInv(s', u)
    {
      LoadHolder(tenant, s, w, user, id, exact, u);
    }
    hide PlanInv, WorkerInv, HolderInv;
  }

  lemma LoadHolder(tenant: string, s: Sys, w: Worker, user: User, id: Id, exact: bool, u: Worker)
    requires Inv(tenant, s, exact) && u in Step(tenant, s, Load(w, user, id)).phases && Holds(Step(tenant, s, Load(w, user, id)), u)
    ensures HolderInv(Step(tenant, s, Load(w, user, id)), u)
  {
    hide Agrees, Visible, HolderInv;
    if u in s.phases {
      LoadElsewhere(tenant, s, w, user, id, u);
      assert HolderInv(s, u);
      hide Inv;
      OldHolder(s, Step(tenant, s, Load(w, user, id)), w, u);
    } else {
      NewHolder(tenant, s, w, user, id, exact, u);
    }
  }

  /** A worker that still holds a lease after the load holds another user's, or nothing happened. */
  lemma LoadElsewhere(tenant: string, s: Sys, w: Worker, user: User, id: Id, u: Worker)
    requires u in s.phases && u in Step(tenant, s, Load(w, user, id)).phases && Holds(Step(tenant, s, Load(w, user, id)), u)
    ensures var s' := Step(tenant, s, Load(w, user, id));
            && Holds(s, u) && s'.db == s.db && s'.phases[u] == s.phases[u]
            && (forall v :: v in s'.phases && s'.phases[v].user == s.phases[u].user ==> v in s.phases && s'.phases[v] == s.phases[v])
  {
    hide Visible, SourceVersion;
  }

  lemma OldHolder(s: Sys, s': Sys, w: Worker, u: Worker)
    requires u in s.phases && u in s'.phases && s'.phases[u] == s.phases[u] && s'.db == s.db && HolderInv(s, u)
    requires forall v :: v in s'.phases && s'.phases[v].user == s.phases[u].user ==> v in s.phases && s'.phases[v] == s.phases[v]
    ensures HolderInv(s', u)
  {
    hide Applied, Mark;
  }

  lemma NewHolder(tenant: string, s: Sys, w: Worker, user: User, id: Id, exact: bool, u: Worker)
    requires Inv(tenant, s, exact) && u !in s.phases && u in Step(tenant, s, Load(w, user, id)).phases
    ensures HolderInv(Step(tenant, s, Load(w, user, id)), u)
  {
    hide ValidEdges, Keyed, Agrees, Plannable, Visible, SourceVersion, Applied;
    var s' := Step(tenant, s, Load(w, user, id));
    forall v | v in s.phases && !s.phases[v].Clearing? && s.phases[v].user == user && s.phases[v].id == id
      ensures Mark(s.phases[v]) <= Mark(s'.phases[u])
    {
      assert WorkerInv(tenant, s, v, exact);
    }
    if (user, id) in s.db.plans {
      assert PlanInv(tenant, s, user, id, exact);
    }
    hide Inv;
  }

  /** The graph changes for one memory only, and there it agrees with what is current. */
  ghost predicate ChangesOnly(tenant: string, s: Sys, s': Sys, user: User, id: Id, exact: bool) {
    && s'.db == s.db && ValidEdges(s'.edges)
    && (forall u, i, es :: (u, i) != (user, id) && Agrees(tenant, s, u, i, es, exact) ==> Agrees(tenant, s', u, i, es, exact))
  }

  lemma WriteChanges(tenant: string, s: Sys, w: Worker, exact: bool)
    requires ValidEdges(s.edges) && w in s.phases && s.phases[w].Loaded? && Plannable(s.phases[w].es)
    ensures var s', p := Step(tenant, s, Write(w)), s.phases[w];
            ChangesOnly(tenant, s, s', p.user, p.id, exact) && Agrees(tenant, s', p.user, p.id, p.es, exact)
  {
    hide ValidEdges, EvidenceIn, Replace, Proposed, Visible;
    var p := s.phases[w];
    ReplaceMeans(s.edges, Scope(tenant, p.user), p.id, p.es);
  }

  lemma WritePlan(tenant: string, s: Sys, w: Worker, exact: bool, u: User, i: Id)
    requires Inv(tenant, s, exact) && Holds(s, w) && s.phases[w].Loaded? && (u, i) in s.db.plans
    ensures PlanInv(tenant, Step(tenant, s, Write(w)), u, i, exact)
  {
    hide ValidEdges, Keyed, Agrees, Replace, Plannable, Visible;
    assert WorkerInv(tenant, s, w, exact) && HolderInv(s, w) && PlanInv(tenant, s, u, i, exact);
    WriteChanges(tenant, s, w, exact);
    hide Inv;
  }

  lemma WriteWorker(tenant: string, s: Sys, w: Worker, exact: bool, u: Worker)
    requires Inv(tenant, s, exact) && Holds(s, w) && s.phases[w].Loaded? && u in s.phases
    ensures WorkerInv(tenant, Step(tenant, s, Write(w)), u, exact)
  {
    hide ValidEdges, Keyed, Agrees, Replace, Plannable, Visible;
    assert WorkerInv(tenant, s, w, exact) && HolderInv(s, w) && WorkerInv(tenant, s, u, exact);
    WriteChanges(tenant, s, w, exact);
    hide Inv;
  }

  /** The workers stay where they were, as far as the leases go, and no plan changes. */
  predicate SamePlaces(s: Sys, s': Sys) {
    && s'.holders == s.holders && s'.db.plans == s.db.plans
    && forall u :: u in s'.phases ==> u in s.phases && Mark(s'.phases[u]) == Mark(s.phases[u]) && s'.phases[u].user == s.phases[u].user
                                       && s'.phases[u].id == s.phases[u].id && (s'.phases[u].Clearing? <==> s.phases[u].Clearing?)
  }

  lemma HoldersStay(s: Sys, s': Sys)
    requires SamePlaces(s, s') && forall u :: u in s.phases && Holds(s, u) ==> HolderInv(s, u)
    ensures forall u :: u in s'.phases && Holds(s', u) ==> HolderInv(s', u)
  {
    hide Mark, Applied;
    forall u | u in s'.phases && Holds(s', u)
      ensures HolderInv(s', u)
    {
      assert Holds(s, u);
    }
  }

  lemma WriteKept(tenant: string, s: Sys, w: Worker, exact: bool)
    requires Inv(tenant, s, exact) && !LateWrite(s, Write(w))
    ensures Inv(tenant, Step(tenant, s, Write(w)), exact)
  {
    if w in s.phases && s.phases[w].Loaded? {
      var s' := Step(tenant, s, Write(w));
      forall u, i | (u, i) in s'.db.plans
        ensures PlanInv(tenant, s', u, i, exact)
      {
        WritePlan(tenant, s, w, exact, u, i);
      }
      forall u | u in s'.phases
        ensures WorkerInv(tenant, s', u, exact)
      {
        WriteWorker(tenant, s, w, exact, u);
      }
      assert WorkerInv(tenant, s, w, exact);
      WriteChanges(tenant, s, w, exact);
      HoldersStay(s, s');
      hide ValidEdges, Keyed, PlanInv, WorkerInv, HolderInv, Replace;
    }
  }

  lemma ConfirmAgrees(tenant: string, s: Sys, w: Worker, exact: bool)
    ensures forall u, i, es :: Agrees(tenant, Step(tenant, s, Confirm(w)), u, i, es, exact) <==> Agrees(tenant, s, u, i, es, exact)
  {
    hide Covered, Exact;
    assert forall u, i :: Visible(Step(tenant, s, Confirm(w)).db, u, i) <==> Visible(s.db, u, i);
  }

  lemma ConfirmHolder(tenant: string, s: Sys, w: Worker, exact: bool, u: Worker)
    requires Inv(tenant, s, exact) && w in s.phases && s.phases[w].Installed?
    requires u in Step(tenant, s, Confirm(w)).phases && Holds(Step(tenant, s, Confirm(w)), u)
    ensures HolderInv(Step(tenant, s, Confirm(w)), u)
  {
    assert Holds(s, u) && HolderInv(s, u);
    hide Inv;
  }

  lemma ConfirmPlan(tenant: string, s: Sys, w: Worker, exact: bool, u: User, i: Id)
    requires Inv(tenant, s, exact) && w in s.phases && s.phases[w].Installed? && (u, i) in Step(tenant, s, Confirm(w)).db.plans
    ensures PlanInv(tenant, Step(tenant, s, Confirm(w)), u, i, exact)
  {
    assert WorkerInv(tenant, s, w, exact) && PlanInv(tenant, s, u, i, exact);
    ConfirmAgrees(tenant, s, w, exact);
    hide ValidEdges, Agrees, Plannable, Inv, Keyed;
  }

  lemma ConfirmWorker(tenant: string, s: Sys, w: Worker, exact: bool, u: Worker)
    requires Inv(tenant, s, exact) && w in s.phases && s.phases[w].Installed? && u in Step(tenant, s, Confirm(w)).phases
    ensures WorkerInv(tenant, Step(tenant, s, Confirm(w)), u, exact)
  {
    assert WorkerInv(tenant, s, w, exact) && WorkerInv(tenant, s, u, exact);
    ConfirmAgrees(tenant, s, w, exact);
    hide ValidEdges, Agrees, Plannable, Inv, Keyed;
  }

  lemma ConfirmKept(tenant: string, s: Sys, w: Worker, exact: bool)
    requires Inv(tenant, s, exact)
    ensures Inv(tenant, Step(tenant, s, Confirm(w)), exact)
  {
    if w in s.phases && s.phases[w].Installed? {
      hide ValidEdges, PlanInv, WorkerInv, HolderInv;
      var s' := Step(tenant, s, Confirm(w));
      forall u, i | (u, i) in s'.db.plans
        ensures PlanInv(tenant, s', u, i, exact)
      {
        ConfirmPlan(tenant, s, w, exact, u, i);
      }
      forall u | u in s'.phases
        ensures WorkerInv(tenant, s', u, exact)
      {
        ConfirmWorker(tenant, s, w, exact, u);
      }
      forall u | u in s'.phases && Holds(s', u)
        ensures HolderInv(s', u)
      {
        ConfirmHolder(tenant, s, w, exact, u);
      }
    }
  }

  lemma RemovalChanges(tenant: string, s: Sys, s': Sys, user: User, id: Id, exact: bool)
    requires ValidEdges(s.edges) && s'.db == s.db && s'.edges == RemoveMemory(s.edges, Scope(tenant, user), id)
    ensures ChangesOnly(tenant, s, s', user, id, exact)
    ensures forall es :: !exact && Agrees(tenant, s, user, id, es, exact) ==> Agrees(tenant, s', user, id, es, exact)
    ensures forall es :: exact && !Visible(s.db, user, id) ==> Agrees(tenant, s', user, id, es, exact)
  {
    hide ValidEdges, EvidenceIn, RemoveMemory, Proposed, Visible;
    var scope := Scope(tenant, user);
    RemoveMemoryValid(s.edges, scope, id);
    forall k: EdgeKey, i: Id
      ensures EvidenceIn(s'.edges, k, i) == if k.scope == scope && i == id then None else EvidenceIn(s.edges, k, i)
    {
      RemoveMemoryMeans(s.edges, scope, id, k, i);
    }
  }

  lemma ClearKept(tenant: string, s: Sys, w: Worker, exact: bool)
    requires Inv(tenant, s, exact) && (exact ==> !StrayRemoval(s, Clear(w)))
    ensures Inv(tenant, Step(tenant, s, Clear(w)), exact)
  {
    if w in s.phases && s.phases[w].Clearing? {
      hide ValidEdges, Keyed, Agrees, RemoveMemory, Plannable, Visible;
      var s', p := Step(tenant, s, Clear(w)), s.phases[w];
      assert WorkerInv(tenant, s, w, exact) && (exact ==> HolderInv(s, w));
      RemovalChanges(tenant, s, s', p.user, p.id, exact);
      forall u, i | (u, i) in s'.db.plans
        ensures PlanInv(tenant, s', u, i, exact)
      {
        assert PlanInv(tenant, s, u, i, exact);
      }
      forall u | u in s'.phases
        ensures WorkerInv(tenant, s', u, exact)
      {
        assert WorkerInv(tenant, s, u, exact);
      }
      HoldersStay(s, s');
    }
  }

  lemma RedactKept(tenant: string, s: Sys, user: User, id: Id, exact: bool)
    requires Inv(tenant, s, exact) && (exact ==> !StrayRemoval(s, Redact(user, id)))
    ensures Inv(tenant, Step(tenant, s, Redact(user, id)), exact)
  {
    hide ValidEdges, Keyed, Agrees, RemoveMemory, Plannable, Visible;
    var s' := Step(tenant, s, Redact(user, id));
    RemovalChanges(tenant, s, s', user, id, exact);
    forall u, i | (u, i) in s'.db.plans
      ensures PlanInv(tenant, s', u, i, exact)
    {
      assert PlanInv(tenant, s, u, i, exact);
    }
    forall u | u in s'.phases
      ensures WorkerInv(tenant, s', u, exact)
    {
      assert WorkerInv(tenant, s, u, exact);
    }
    HoldersStay(s, s');
  }

  lemma StopKept(tenant: string, s: Sys, w: Worker, exact: bool)
    requires Inv(tenant, s, exact)
    ensures Inv(tenant, Step(tenant, s, Stop(w)), exact)
  {
    hide ValidEdges, Keyed, Covered, Exact, Plannable, Visible;
    var s' := Step(tenant, s, Stop(w));
    assert forall u, i, es :: Agrees(tenant, s', u, i, es, exact) <==> Agrees(tenant, s, u, i, es, exact);
    hide Agrees;
    forall u, i | (u, i) in s'.db.plans
      ensures PlanInv(tenant, s', u, i, exact)
    {
      assert PlanInv(tenant, s, u, i, exact);
    }
    forall u | u in s'.phases
      ensures WorkerInv(tenant, s', u, exact)
    {
      assert WorkerInv(tenant, s, u, exact);
    }
    HoldersStay(s, s');
  }

  /** The other transactions: plans change only by being stored anew, unacknowledged and under a fresh revision, or by being scrubbed. */
  lemma EnvPlans(db: Db<Plans>, e: Runs.Event<Plans>, user: User, id: Id)
    requires Keyed(db) && EnvAllowed(e) && (user, id) in Runs.Step(db, e).plans
    ensures Runs.Step(db, e).nextRevision >= db.nextRevision
    ensures var plan := Runs.Step(db, e).plans[(user, id)];
            || ((user, id) in db.plans && plan == db.plans[(user, id)])
            || (Plannable(plan.evidence) && plan.revision == db.nextRevision < Runs.Step(db, e).nextRevision && plan.applied.None?
                && id in Runs.Step(db, e).memories && Runs.Step(db, e).memories[id].record.user == user)
  {
    hide RouteAdmits, Storable, Tombstoned, Plannable, SourceVersion;
  }

  lemma EnvRevision(db: Db<Plans>, e: Runs.Event<Plans>)
    ensures Runs.Step(db, e).nextRevision >= db.nextRevision
  {
    hide CommitAdmits, ReplayAdmits, MemoryWriteResult;
  }

  /** Without a bare upsert, a hidden memory comes back only with a new plan. */
  lemma StaysHidden(db: Db<Plans>, e: Runs.Event<Plans>, user: User, id: Id)
    requires Keyed(db) && id in db.memories && db.memories[id].record.user == user && !Visible(db, user, id) && !e.Upserted?
    requires (user, id) in db.plans && db.plans[(user, id)].revision < db.nextRevision
    requires (user, id) in Runs.Step(db, e).plans && Runs.Step(db, e).plans[(user, id)] == db.plans[(user, id)]
    ensures !Visible(Runs.Step(db, e), user, id)
  {
    hide Visible, Runs.Step;
    Runs.HiddenReappearsIff(db, e, user, id);
    if e.Committed? && CommitAdmits(db, e.logical, e.r) && e.r.id == id {
      assert Runs.Writes(db, e);
      Runs.WrittenRow(db, e);
      CommitPlans(db, e);
    }
  }

  lemma CommitPlans(db: Db<Plans>, e: Runs.Event<Plans>)
    requires e.Committed? && CommitAdmits(db, e.logical, e.r)
    ensures (e.r.user, e.r.id) in Runs.Step(db, e).plans && Runs.Step(db, e).plans[(e.r.user, e.r.id)].revision == db.nextRevision
  {
  }

  lemma EnvAgrees(tenant: string, s: Sys, e: Runs.Event<Plans>, user: User, id: Id, es: seq<GraphEdge>, exact: bool)
    requires Inv(tenant, s, exact) && EnvAllowed(e) && (exact ==> !e.Upserted?) && Agrees(tenant, s, user, id, es, exact)
    requires (user, id) in s.db.plans
    requires (user, id) in Runs.Step(s.db, e).plans && Runs.Step(s.db, e).plans[(user, id)] == s.db.plans[(user, id)]
    ensures Agrees(tenant, Step(tenant, s, Env(e)), user, id, es, exact)
  {
    assert PlanInv(tenant, s, user, id, exact);
    hide ValidEdges, Covered, Exact, Plannable, Runs.Step, EnvAllowed, Visible, WorkerInv, HolderInv;
    if exact && !Visible(s.db, user, id) {
      StaysHidden(s.db, e, user, id);
    }
  }

  lemma EnvWorker(tenant: string, s: Sys, e: Runs.Event<Plans>, w: Worker, exact: bool)
    requires Inv(tenant, s, exact) && EnvAllowed(e) && (exact ==> !e.Upserted?) && w in s.phases
    ensures WorkerInv(tenant, Step(tenant, s, Env(e)), w, exact)
  {
    assert WorkerInv(tenant, s, w, exact);
    var s', p := Step(tenant, s, Env(e)), s.phases[w];
    EnvRevision(s.db, e);
    hide Runs.Step, EnvAllowed, Agrees, Visible, Plannable, HolderInv;
    if (p.user, p.id) in s'.db.plans {
      EnvPlans(s.db, e, p.user, p.id);
      if (p.user, p.id) in s.db.plans && s'.db.plans[(p.user, p.id)] == s.db.plans[(p.user, p.id)] {
        var plan := s.db.plans[(p.user, p.id)];
        assert PlanInv(tenant, s, p.user, p.id, exact);
        if p.Installed? && plan.revision == p.revision {
          EnvAgrees(tenant, s, e, p.user, p.id, plan.evidence, exact);
        } else if p.Clearing? && exact && plan.revision < p.mark {
          StaysHidden(s.db, e, p.user, p.id);
        }
      }
    }
  }

  lemma EnvPlan(tenant: string, s: Sys, e: Runs.Event<Plans>, user: User, id: Id, exact: bool)
    requires Inv(tenant, s, exact) && EnvAllowed(e) && (exact ==> !e.Upserted?) && (user, id) in Step(tenant, s, Env(e)).db.plans
    ensures PlanInv(tenant, Step(tenant, s, Env(e)), user, id, exact)
  {
    var s' := Step(tenant, s, Env(e));
    EnvPlans(s.db, e, user, id);
    hide Runs.Step, EnvAllowed, Agrees, Visible, Plannable, HolderInv, WorkerInv;
    if (user, id) in s.db.plans && s'.db.plans[(user, id)] == s.db.plans[(user, id)] {
      assert PlanInv(tenant, s, user, id, exact);
      Runs.RowStays(s.db, e, user, id);
      if Applied(s.db.plans[(user, id)]) {
        EnvAgrees(tenant, s, e, user, id, s.db.plans[(user, id)].evidence, exact);
      }
    }
  }

  lemma EnvKept(tenant: string, s: Sys, e: Runs.Event<Plans>, exact: bool)
    requires Inv(tenant, s, exact) && EnvAllowed(e) && (exact ==> !e.Upserted?)
    ensures Inv(tenant, Step(tenant, s, Env(e)), exact)
  {
    var s' := Step(tenant, s, Env(e));
    Runs.KeyedStep(s.db, e);
    forall user, id | (user, id) in s'.db.plans
      ensures PlanInv(tenant, s', user, id, exact)
    {
      EnvPlan(tenant, s, e, user, id, exact);
    }
    forall w | w in s'.phases
      ensures WorkerInv(tenant, s', w, exact)
    {
      EnvWorker(tenant, s, e, w, exact);
    }
    hide ValidEdges, Keyed, PlanInv, WorkerInv, Runs.Step, EnvAllowed;
    forall w | w in s'.phases && Holds(s', w)
      ensures HolderInv(s', w)
    {
      assert Holds(s, w) && HolderInv(s, w);
      var p := s.phases[w];
      if (p.user, p.id) in s'.db.plans {
        EnvPlans(s.db, e, p.user, p.id);
      }
    }
  }

  lemma StepKept(tenant: string, s: Sys, e: Event, exact: bool)
    requires Inv(tenant, s, exact) && !LateWrite(s, e) && (exact ==> !StrayRemoval(s, e) && !BareUpsert(e))
    ensures Inv(tenant, Step(tenant, s, e), exact)
  {
    hide Inv, EnvAllowed, Runs.Step, Holds, Visible, Replace, RemoveMemory;
    match e {
      case Load(w, user, id) => LoadKept(tenant, s, w, user, id, exact);
      case Write(w) => WriteKept(tenant, s, w, exact);
      case Confirm(w) => ConfirmKept(tenant, s, w, exact);
      case Clear(w) => ClearKept(tenant, s, w, exact);
      case Stop(w) => StopKept(tenant, s, w, exact);
      case Redact(user, id) => RedactKept(tenant, s, user, id, exact);
      case Env(env) =>
        if EnvAllowed(env) {
          EnvKept(tenant, s, env, exact);
        }
    }
  }

  lemma {:induction false} InvAlways(tenant: string, s: Sys, events: seq<Event>, late: bool, stray: bool, bare: bool, exact: bool)
    requires Inv(tenant, s, exact) && Within(tenant, s, events, late, stray, bare) && !late && (exact ==> !stray && !bare)
    ensures Inv(tenant, Run(tenant, s, events), exact)
  {
    hide Inv, Step, LateWrite, StrayRemoval, BareUpsert;
    if events != [] {
      InvAlways(tenant, s, events[..|events| - 1], late, stray, bare, exact);
      StepKept(tenant, Run(tenant, s, events[..|events| - 1]), events[|events| - 1], exact);
    }
  }

  // ---- What graph readers get ----

  /** All that the graph holds for a memory its readers see is what the latest plan proposes. */
  ghost predicate SaysOnlyThePlan(tenant: string, s: Sys, user: User, id: Id, privacy: set<Memories.Privacy>) {
    GraphVisible(s.db, user, id, privacy) ==> Covered(tenant, s.edges, user, id, s.db.plans[(user, id)].evidence)
  }

  /** And all that the plan proposes is there. */
  ghost predicate SaysThePlan(tenant: string, s: Sys, user: User, id: Id, privacy: set<Memories.Privacy>) {
    GraphVisible(s.db, user, id, privacy) ==> Exact(tenant, s.edges, user, id, s.db.plans[(user, id)].evidence)
  }

  /** Without late writes, whatever the graph holds for a memory that is visible to graph readers is what its latest plan proposes. */
  lemma GraphAnswersFromLatestPlan(tenant: string, s: Sys, events: seq<Event>, stray: bool, bare: bool, user: User, id: Id, privacy: set<Memories.Privacy>)
    requires Start(s) && Within(tenant, s, events, false, stray, bare)
    ensures SaysOnlyThePlan(tenant, Run(tenant, s, events), user, id, privacy)
  {
    hide Covered, ValidEdges, Step, Within;
    InvAlways(tenant, s, events, false, stray, bare, false);
    if (user, id) in Run(tenant, s, events).db.plans {
      assert PlanInv(tenant, Run(tenant, s, events), user, id, false);
    }
  }

  /** Without stray removals and bare upserts either, it is exactly what the latest plan proposes. */
  lemma GraphAnswersLatestPlan(tenant: string, s: Sys, events: seq<Event>, user: User, id: Id, privacy: set<Memories.Privacy>)
    requires Start(s) && Within(tenant, s, events, false, false, false)
    ensures SaysThePlan(tenant, Run(tenant, s, events), user, id, privacy)
  {
    hide Exact, ValidEdges, Step, Within;
    InvAlways(tenant, s, events, false, false, false, true);
    if (user, id) in Run(tenant, s, events).db.plans {
      assert PlanInv(tenant, Run(tenant, s, events), user, id, true);
    }
  }

  /** One undisturbed pass makes a readable memory with a current plan visible, with exactly the plan's evidence. */
  lemma PassInstallsPlan(tenant: string, s: Sys, w: Worker, user: User, id: Id, privacy: set<Memories.Privacy>)
    requires ValidEdges(s.edges) && w !in s.phases
    requires Visible(s.db, user, id) && s.db.memories[id].record.privacy in privacy
    requires (user, id) in s.db.plans && Plannable(s.db.plans[(user, id)].evidence)
    requires s.db.plans[(user, id)].version == SourceVersion(s.db.memories[id].record) == SourceVersion(s.db.plans[(user, id)].record)
    ensures var end := Step(tenant, Step(tenant, Step(tenant, s, Load(w, user, id)), Write(w)), Confirm(w));
            GraphVisible(end.db, user, id, privacy) && Exact(tenant, end.edges, user, id, s.db.plans[(user, id)].evidence)
  {
    hide EvidenceIn, Proposed, ValidEdges, SourceVersion, Replace, RemoveMemory;
    var plan := s.db.plans[(user, id)];
    ReplaceMeans(s.edges, Scope(tenant, user), id, plan.evidence);
    var end := Step(tenant, Step(tenant, Step(tenant, s, Load(w, user, id)), Write(w)), Confirm(w));
    assert end.edges == Replace(s.edges, Scope(tenant, user), id, plan.evidence);
    assert end.db == Acknowledge(s.db, user, id, plan.revision);
    Cutover.SameTombstones(s.db, end.db, user, s.db.memories[id].record.sources);
  }

  /** One undisturbed pass over a memory found hidden takes it out of the graph, in its own scope, and changes nothing else. */
  lemma PassClears(tenant: string, s: Sys, w: Worker, user: User, id: Id)
    requires ValidEdges(s.edges) && w !in s.phases
    requires id in s.db.memories && s.db.memories[id].record.user == user && !Visible(s.db, user, id)
    ensures var end := Step(tenant, Step(tenant, s, Load(w, user, id)), Clear(w));
            && end.db == s.db && end.phases == s.phases
            && forall k: EdgeKey, m: Id :: EvidenceIn(end.edges, k, m) ==
                 if k.scope.tenant == tenant && k.scope.user == user && m == id then None else EvidenceIn(s.edges, k, m)
  {
    hide EvidenceIn, ValidEdges, Visible, RemoveMemory;
    var end := Step(tenant, Step(tenant, s, Load(w, user, id)), Clear(w));
    assert end.edges == RemoveMemory(s.edges, Scope(tenant, user), id);
    Removal(tenant, s.edges, user, id);
  }

  /** A forget's own removal takes the memory out of the graph as well. */
  lemma RedactClears(tenant: string, s: Sys, user: User, id: Id)
    requires ValidEdges(s.edges)
    ensures var end := Step(tenant, s, Redact(user, id));
            && end.db == s.db && end.phases == s.phases && end.holders == s.holders
            && forall k: EdgeKey, m: Id :: EvidenceIn(end.edges, k, m) ==
                 if k.scope.tenant == tenant && k.scope.user == user && m == id then None else EvidenceIn(s.edges, k, m)
  {
    hide EvidenceIn, ValidEdges, RemoveMemory;
    Removal(tenant, s.edges, user, id);
  }

  lemma Removal(tenant: string, edges: Edges, user: User, id: Id)
    requires ValidEdges(edges)
    ensures forall k: EdgeKey, m: Id :: EvidenceIn(RemoveMemory(edges, Scope(tenant, user), id), k, m) ==
              if k.scope.tenant == tenant && k.scope.user == user && m == id then None else EvidenceIn(edges, k, m)
  {
    hide EvidenceIn, ValidEdges, RemoveMemory;
    forall k: EdgeKey, m: Id
      ensures EvidenceIn(RemoveMemory(edges, Scope(tenant, user), id), k, m) ==
              if k.scope.tenant == tenant && k.scope.user == user && m == id then None else EvidenceIn(edges, k, m)
    {
      RemoveMemoryMeans(edges, Scope(tenant, user), id, k, m);
      assert k.scope == Scope(tenant, user) <==> k.scope.tenant == tenant && k.scope.user == user;
    }
  }
}
