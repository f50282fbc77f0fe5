/**
 What can make the graph answer with something else than the latest plan, by concrete runs: a write after
 the lease lapsed, a removal of a readable memory's edges, a row written without a plan. And that nothing
 else can.
 */
module GraphLapses {
  import opened Wrappers
  import opened Memories
  import opened GraphModel
  import opened GraphStore
  import opened GraphSync
  import Runs = MemoryRuns

  /** The run has reached the state, within what the flags permit. */
  ghost predicate So(tenant: string, start: Sys, trace: seq<Event>, s: Sys, late: bool, stray: bool, bare: bool) {
    Run(tenant, start, trace) == s && Within(tenant, start, trace, late, stray, bare)
  }

  lemma Go(tenant: string, start: Sys, trace: seq<Event>, s: Sys, e: Event, late: bool, stray: bool, bare: bool)
    requires So(tenant, start, trace, s, late, stray, bare)
    requires (late || !LateWrite(s, e)) && (stray || !StrayRemoval(s, e)) && (bare || !BareUpsert(e))
    ensures So(tenant, start, trace + [e], Step(tenant, s, e), late, stray, bare)
  {
    hide Step, LateWrite, StrayRemoval, BareUpsert;
    assert (trace + [e])[..|trace|] == trace;
  }

  /** A memory that is readable and may be stored, and an edge to plan for it. */
  predicate Fit(r: Record, e: GraphEdge) {
    r.status.Active? && r.sources == ["x"] && Storable(r) && e.confidence >= 0.0
  }

  function Tables(memories: map<Id, Row>, tombstones: map<(User, Source), Tombstone>, plans: map<(User, Id), Plan<Plans>>, next: nat): Db<Plans> {
    Db(memories, tombstones, plans, map[], next)
  }

  /** The memory alone, without a plan. */
  function Alone(r: Record): Sys {
    Sys(Tables(map[r.id := Row(r, r.createdAt)], map[], map[], 0), map[], map[], map[])
  }

  function Planned(r: Record, es: seq<GraphEdge>, revision: nat): Sys {
    Sys(Tables(map[r.id := Row(r, r.createdAt)], map[], map[(r.user, r.id) := Plan(r, es, SourceVersion(r), revision, None)], revision + 1), map[], map[], map[])
  }

  lemma AloneStarts(r: Record)
    ensures Start(Alone(r))
  {
  }

  /** A commit of the memory with these edges. */
  lemma Commits(tenant: string, s: Sys, r: Record, es: seq<GraphEdge>)
    requires r.status.Active? && r.sources == ["x"] && Storable(r) && Plannable(es)
    requires r.id in s.db.memories && s.db.memories[r.id].record == r && s.db.tombstones == map[] && s.db.routes == map[]
    ensures Step(tenant, s, Env(Runs.Committed("memories", r, es))) ==
            s.(db := s.db.(plans := s.db.plans[(r.user, r.id) := Plan(r, es, SourceVersion(r), s.db.nextRevision, None)], nextRevision := s.db.nextRevision + 1))
  {
    hide SourceVersion, Plannable;
    assert !Tombstoned(s.db, r.user, r.sources);
    assert s.db.memories[r.id := s.db.memories[r.id].(record := r)] == s.db.memories;
  }

  lemma OnePlannable(e: GraphEdge)
    requires e.confidence >= 0.0
    ensures Plannable([e]) && Plannable([])
  {
  }

  /** The load of a readable memory with a current plan. */
  lemma Loads(tenant: string, s: Sys, w: Worker, r: Record)
    requires w !in s.phases && r.id in s.db.memories && s.db.memories[r.id].record == r && Visible(s.db, r.user, r.id)
    requires (r.user, r.id) in s.db.plans && s.db.plans[(r.user, r.id)].version == SourceVersion(r)
    ensures var plan := s.db.plans[(r.user, r.id)];
            Step(tenant, s, Load(w, r.user, r.id)) ==
            s.(phases := s.phases[w := Loaded(r.user, r.id, plan.revision, plan.evidence)], holders := s.holders[r.user := w])
  {
    hide Visible, SourceVersion;
  }

  function Pass(w: Worker, r: Record): seq<Event> {
    [Load(w, r.user, r.id), Write(w), Confirm(w)]
  }

  /** A whole pass within the lease: the plan is acknowledged and the graph says exactly that. */
  lemma Passes(tenant: string, start: Sys, trace: seq<Event>, s: Sys, w: Worker, r: Record, late: bool, stray: bool, bare: bool) returns (end: Sys)
    requires So(tenant, start, trace, s, late, stray, bare) && ValidEdges(s.edges)
    requires w !in s.phases && r.id in s.db.memories && s.db.memories[r.id].record == r && Visible(s.db, r.user, r.id)
    requires (r.user, r.id) in s.db.plans && Plannable(s.db.plans[(r.user, r.id)].evidence)
    requires s.db.plans[(r.user, r.id)].version == SourceVersion(r) && s.db.plans[(r.user, r.id)].record == r
    ensures So(tenant, start, trace + Pass(w, r), end, late, stray, bare)
    ensures end.db == Acknowledge(s.db, r.user, r.id, s.db.plans[(r.user, r.id)].revision)
    ensures end.edges == Replace(s.edges, Scope(tenant, r.user), r.id, s.db.plans[(r.user, r.id)].evidence)
    ensures end.phases == s.phases && end.holders == s.holders[r.user := w]
    ensures GraphVisible(end.db, r.user, r.id, {r.privacy})
  {
    hide So, Visible, SourceVersion, Replace, ValidEdges, Plannable;
    var plan := s.db.plans[(r.user, r.id)];
    var s1 := Step(tenant, s, Load(w, r.user, r.id));
    Loads(tenant, s, w, r);
    Go(tenant, start, trace, s, Load(w, r.user, r.id), late, stray, bare);
    var s2 := Step(tenant, s1, Write(w));
    Go(tenant, start, trace + [Load(w, r.user, r.id)], s1, Write(w), late, stray, bare);
    end := Step(tenant, s2, Confirm(w));
    Go(tenant, start, trace + [Load(w, r.user, r.id)] + [Write(w)], s2, Confirm(w), late, stray, bare);
    assert trace + [Load(w, r.user, r.id)] + [Write(w)] + [Confirm(w)] == trace + Pass(w, r);
    PassInstallsPlan(tenant, s, w, r.user, r.id, {r.privacy});
    assert end.phases == s.phases;
  }

  /** The memory committed with one edge. */
  lemma First(tenant: string, r: Record, e: GraphEdge, late: bool, stray: bool, bare: bool)
    requires Fit(r, e)
    ensures So(tenant, Alone(r), [Env(Runs.Committed("memories", r, [e]))], Planned(r, [e], 0), late, stray, bare)
    ensures Visible(Planned(r, [e], 0).db, r.user, r.id)
  {
    var start := Alone(r);
    assert So(tenant, start, [], start, late, stray, bare);
    OnePlannable(e);
    Commits(tenant, start, r, [e]);
    hide So, Step, SourceVersion, Plannable;
    Go(tenant, start, [], start, Env(Runs.Committed("memories", r, [e])), late, stray, bare);
    assert [] + [Env(Runs.Committed("memories", r, [e]))] == [Env(Runs.Committed("memories", r, [e]))];
  }

  // ---- A late write ----

  function LateRun(r: Record, e: GraphEdge): seq<Event> {
    [Env(Runs.Committed("memories", r, [e])), Load("a", r.user, r.id), Env(Runs.Committed("memories", r, []))] + Pass("b", r) + [Write("a")]
  }

  /** The second plan proposes nothing, and the late writer of the first puts its edge back under it. */
  lemma LateWriteExample(tenant: string, r: Record, e: GraphEdge)
    requires Fit(r, e)
    ensures var end := Run(tenant, Alone(r), LateRun(r, e));
            && Within(tenant, Alone(r), LateRun(r, e), true, false, false)
            && !SaysOnlyThePlan(tenant, end, r.user, r.id, {r.privacy}) && !SaysThePlan(tenant, end, r.user, r.id, {r.privacy})
  {
    hide So, Visible, SourceVersion, Plannable, Within, Run;
    var start, s1 := Alone(r), Planned(r, [e], 0);
    First(tenant, r, e, true, false, false);
    OnePlannable(e);
    var t1 := [Env(Runs.Committed("memories", r, [e]))];
    Loads(tenant, s1, "a", r);
    Go(tenant, start, t1, s1, Load("a", r.user, r.id), true, false, false);
    var s2 := Step(tenant, s1, Load("a", r.user, r.id));
    var t2 := t1 + [Load("a", r.user, r.id)];
    Commits(tenant, s2, r, []);
    Go(tenant, start, t2, s2, Env(Runs.Committed("memories", r, [])), true, false, false);
    var s3 := Step(tenant, s2, Env(Runs.Committed("memories", r, [])));
    var t3 := t2 + [Env(Runs.Committed("memories", r, []))];
    SameVisible(s1.db, s3.db, r.user, r.id);
    assert ValidEdges(s3.edges);
    var s4 := Passes(tenant, start, t3, s3, "b", r, true, false, false);
    Go(tenant, start, t3 + Pass("b", r), s4, Write("a"), true, false, false);
    assert t3 + Pass("b", r) + [Write("a")] == LateRun(r, e);
    Reached(tenant, start, LateRun(r, e), Step(tenant, s4, Write("a")), true, false, false);
    var end := Step(tenant, s4, Write("a"));
    assert end.db == s4.db && end.edges == Replace(s4.edges, Scope(tenant, r.user), r.id, [e]);
    RemoveEverything(tenant, r, s3.edges);
    OneEdge(tenant, s4.edges, r, e);
  }

  lemma SameVisible(db: Db<Plans>, db': Db<Plans>, user: User, id: Id)
    requires db'.memories == db.memories && db'.tombstones == db.tombstones
    ensures Visible(db', user, id) <==> Visible(db, user, id)
  {
  }

  lemma Reached(tenant: string, start: Sys, trace: seq<Event>, s: Sys, late: bool, stray: bool, bare: bool)
    requires So(tenant, start, trace, s, late, stray, bare)
    ensures Run(tenant, start, trace) == s && Within(tenant, start, trace, late, stray, bare)
  {
  }

  lemma RemoveEverything(tenant: string, r: Record, edges: Edges)
    requires edges == map[]
    ensures Replace(edges, Scope(tenant, r.user), r.id, []) == map[]
  {
  }

  /** A replacement by one edge puts its evidence into the graph. */
  lemma OneEdge(tenant: string, edges: Edges, r: Record, e: GraphEdge)
    requires ValidEdges(edges) && e.confidence >= 0.0
    ensures var k := KeyOf(Scope(tenant, r.user), e);
            && k.scope == Scope(tenant, r.user)
            && EvidenceIn(Replace(edges, Scope(tenant, r.user), r.id, [e]), k, r.id).Some?
            && Proposed(k.scope, [e], k).Some? && Proposed(k.scope, [], k).None?
    ensures !Covered(tenant, Replace(edges, Scope(tenant, r.user), r.id, [e]), r.user, r.id, [])
    ensures !Exact(tenant, Replace(edges, Scope(tenant, r.user), r.id, [e]), r.user, r.id, [])
  {
    hide ValidEdges, EvidenceIn, Replace;
    OnePlannable(e);
    ReplaceMeans(edges, Scope(tenant, r.user), r.id, [e]);
    var k := KeyOf(Scope(tenant, r.user), e);
    assert EvidenceIn(Replace(edges, Scope(tenant, r.user), r.id, [e]), k, r.id) == Proposed(k.scope, [e], k);
  }

  // ---- A stray removal ----

  function StrayRun(r: Record, e: GraphEdge): seq<Event> {
    [Env(Runs.Committed("memories", r, [e]))] + Pass("a", r) + [Redact(r.user, r.id)]
  }

  lemma NoEdge(tenant: string, edges: Edges, r: Record, e: GraphEdge)
    requires ValidEdges(edges) && e.confidence >= 0.0
    ensures !Exact(tenant, RemoveMemory(edges, Scope(tenant, r.user), r.id), r.user, r.id, [e])
  {
    hide ValidEdges, EvidenceIn, RemoveMemory;
    var k := KeyOf(Scope(tenant, r.user), e);
    RemoveMemoryMeans(edges, Scope(tenant, r.user), r.id, k, r.id);
    assert Proposed(k.scope, [e], k).Some?;
  }

  lemma ReplacedValid(edges: Edges, scope: Scope, id: Id, e: GraphEdge)
    requires ValidEdges(edges) && e.confidence >= 0.0
    ensures ValidEdges(Replace(edges, scope, id, [e]))
  {
    hide ValidEdges, EvidenceIn, Replace;
    OnePlannable(e);
    ReplaceMeans(edges, scope, id, [e]);
  }

  /** The memory committed with one edge, and carried into the graph. */
  lemma Carried(tenant: string, r: Record, e: GraphEdge, stray: bool, bare: bool) returns (s: Sys)
    requires Fit(r, e)
    ensures So(tenant, Alone(r), [Env(Runs.Committed("memories", r, [e]))] + Pass("a", r), s, false, stray, bare)
    ensures s.db == Acknowledge(Planned(r, [e], 0).db, r.user, r.id, 0) && s.phases == map[] && s.holders == map[r.user := "a"]
    ensures ValidEdges(s.edges) && GraphVisible(s.db, r.user, r.id, {r.privacy})
  {
    hide So, Visible, SourceVersion, Plannable, Replace;
    First(tenant, r, e, false, stray, bare);
    OnePlannable(e);
    assert ValidEdges(Planned(r, [e], 0).edges);
    s := Passes(tenant, Alone(r), [Env(Runs.Committed("memories", r, [e]))], Planned(r, [e], 0), "a", r, false, stray, bare);
    ReplacedValid(map[], Scope(tenant, r.user), r.id, e);
  }

  /** The edges of a memory that its readers see are gone. */
  lemma StrayRemovalExample(tenant: string, r: Record, e: GraphEdge)
    requires Fit(r, e)
    ensures var end := Run(tenant, Alone(r), StrayRun(r, e));
            Within(tenant, Alone(r), StrayRun(r, e), false, true, false) && !SaysThePlan(tenant, end, r.user, r.id, {r.privacy})
  {
    hide So, Visible, SourceVersion, Plannable, Within, Run, ValidEdges, RemoveMemory, Exact;
    var s := Carried(tenant, r, e, true, false);
    var trace := [Env(Runs.Committed("memories", r, [e]))] + Pass("a", r);
    Go(tenant, Alone(r), trace, s, Redact(r.user, r.id), false, true, false);
    Reached(tenant, Alone(r), StrayRun(r, e), Step(tenant, s, Redact(r.user, r.id)), false, true, false);
    NoEdge(tenant, s.edges, r, e);
  }

  // ---- A row written without a plan ----

  function BareRun(r: Record, e: GraphEdge): seq<Event> {
    [Env(Runs.Committed("memories", r, [e]))] + Pass("a", r)
    + [Env(Runs.Upserted(r.(sources := ["y"]))), Env(Runs.SourceForgotten(r.user, "y", Tombstone(r.id, false))),
       Load("b", r.user, r.id), Clear("b"), Env(Runs.Upserted(r))]
  }

  /** The tables once the row is hidden: rewritten from another source, which is then forgotten. */
  function Hidden(r: Record, db: Db<Plans>): Db<Plans> {
    db.(memories := map[r.id := Row(r.(sources := ["y"]), r.createdAt)], tombstones := map[(r.user, "y") := Tombstone(r.id, false)])
  }

  /** An admitted upsert of a readable row's id. */
  lemma Upserts(tenant: string, s: Sys, r: Record)
    requires Storable(r) && r.status.Active? && !Tombstoned(s.db, r.user, r.sources)
    requires r.id in s.db.memories && s.db.memories[r.id].record.user == r.user && s.db.memories[r.id].record.status.Active?
    ensures Step(tenant, s, Env(Runs.Upserted(r))) == s.(db := s.db.(memories := s.db.memories[r.id := Row(r, s.db.memories[r.id].createdAt)]))
  {
    hide Storable, Tombstoned, CommitAdmits, ReplayAdmits, RemoveMemory, Replace, SourceVersion;
  }

  lemma HidesRow(tenant: string, s: Sys, r: Record)
    requires r.status.Active? && r.sources == ["x"] && Storable(r)
    requires s.db.memories == map[r.id := Row(r, r.createdAt)] && s.db.tombstones == map[]
    ensures var s1 := Step(tenant, s, Env(Runs.Upserted(r.(sources := ["y"]))));
            Step(tenant, s1, Env(Runs.SourceForgotten(r.user, "y", Tombstone(r.id, false)))) == s.(db := Hidden(r, s.db))
    ensures !Visible(Hidden(r, s.db), r.user, r.id)
  {
    var moved := r.(sources := ["y"]);
    assert !Tombstoned(s.db, moved.user, moved.sources);
    Upserts(tenant, s, moved);
    assert "y" in moved.sources && (r.user, "y") in Hidden(r, s.db).tombstones;
  }

  lemma ShowsRow(tenant: string, s: Sys, r: Record, db: Db<Plans>)
    requires r.status.Active? && r.sources == ["x"] && Storable(r) && s.db == Hidden(r, db) && db.memories == map[r.id := Row(r, r.createdAt)]
    ensures Step(tenant, s, Env(Runs.Upserted(r))) == s.(db := s.db.(memories := db.memories))
    ensures Visible(s.db.(memories := db.memories), r.user, r.id)
  {
    assert "x"[0] != "y"[0];
    assert !Tombstoned(s.db, r.user, r.sources);
    Upserts(tenant, s, r);
    hide Step;
    assert s.db.memories[r.id := Row(r, r.createdAt)] == db.memories;
  }

  lemma Clears(tenant: string, s: Sys, w: Worker, r: Record)
    requires w !in s.phases && r.id in s.db.memories && s.db.memories[r.id].record.user == r.user && !Visible(s.db, r.user, r.id)
    ensures var s1 := Step(tenant, s, Load(w, r.user, r.id)); var s2 := Step(tenant, s1, Clear(w));
            && !StrayRemoval(s1, Clear(w))
            && s2.db == s.db && s2.edges == RemoveMemory(s.edges, Scope(tenant, r.user), r.id)
  {
    hide Visible, RemoveMemory;
  }

  /** The memory is readable again with its acknowledged plan, and its edges are gone. */
  lemma BareUpsertExample(tenant: string, r: Record, e: GraphEdge)
    requires Fit(r, e)
    ensures var end := Run(tenant, Alone(r), BareRun(r, e));
            Within(tenant, Alone(r), BareRun(r, e), false, false, true) && !SaysThePlan(tenant, end, r.user, r.id, {r.privacy})
  {
    hide So, Visible, SourceVersion, Plannable, Within, Run, ValidEdges, RemoveMemory, Exact, Step, StrayRemoval;
    var s0 := Carried(tenant, r, e, false, true);
    var start, trace := Alone(r), [Env(Runs.Committed("memories", r, [e]))] + Pass("a", r);
    var moved, forgotten := Env(Runs.Upserted(r.(sources := ["y"]))), Env(Runs.SourceForgotten(r.user, "y", Tombstone(r.id, false)));
    Quiet(s0, moved);
    Go(tenant, start, trace, s0, moved, false, false, true);
    var s1 := Step(tenant, s0, moved);
    Quiet(s1, forgotten);
    Go(tenant, start, trace + [moved], s1, forgotten, false, false, true);
    var s2 := Step(tenant, s1, forgotten);
    HidesRow(tenant, s0, r);
    Quiet(s2, Load("b", r.user, r.id));
    Go(tenant, start, trace + [moved] + [forgotten], s2, Load("b", r.user, r.id), false, false, true);
    var s3 := Step(tenant, s2, Load("b", r.user, r.id));
    Clears(tenant, s2, "b", r);
    Go(tenant, start, trace + [moved] + [forgotten] + [Load("b", r.user, r.id)], s3, Clear("b"), false, false, true);
    var s4 := Step(tenant, s3, Clear("b"));
    Quiet(s4, Env(Runs.Upserted(r)));
    Go(tenant, start, trace + [moved] + [forgotten] + [Load("b", r.user, r.id)] + [Clear("b")], s4, Env(Runs.Upserted(r)), false, false, true);
    ShowsRow(tenant, s4, r, s0.db);
    assert trace + [moved] + [forgotten] + [Load("b", r.user, r.id)] + [Clear("b")] + [Env(Runs.Upserted(r))] == BareRun(r, e);
    Reached(tenant, start, BareRun(r, e), Step(tenant, s4, Env(Runs.Upserted(r))), false, false, true);
    NoEdge(tenant, s0.edges, r, e);
  }

  lemma Quiet(s: Sys, e: Event)
    requires e.Env? || e.Load?
    ensures !LateWrite(s, e) && !StrayRemoval(s, e)
  {
  }

  // ---- Exactly when readers get the plan ----

  ghost predicate OnlyThePlanOver(tenant: string, late: bool, stray: bool, bare: bool) {
    forall s, events, user, id, privacy :: Start(s) && Within(tenant, s, events, late, stray, bare) ==>
      SaysOnlyThePlan(tenant, Run(tenant, s, events), user, id, privacy)
  }

  ghost predicate ThePlanOver(tenant: string, late: bool, stray: bool, bare: bool) {
    forall s, events, user, id, privacy :: Start(s) && Within(tenant, s, events, late, stray, bare) ==>
      SaysThePlan(tenant, Run(tenant, s, events), user, id, privacy)
  }

  function Sample(): (sample: (Record, GraphEdge))
    ensures Fit(sample.0, sample.1)
  {
    (Record("r", "user", None, "content", "fact", ["x"], [], [], Private, 0, 0, Active, Embedding(Some("p"), Some("m"), Some(1), None), 0, None),
     GraphEdge("tenant", "user", "a", "knows", "b", 1.0, [], 0, 0))
  }

  /** More than the flags permit is permitted by more flags. */
  lemma {:induction false} WithinMore(tenant: string, s: Sys, events: seq<Event>, late: bool, stray: bool, bare: bool, late': bool, stray': bool, bare': bool)
    requires Within(tenant, s, events, late, stray, bare) && (late ==> late') && (stray ==> stray') && (bare ==> bare')
    ensures Within(tenant, s, events, late', stray', bare')
  {
    hide Step, LateWrite, StrayRemoval, BareUpsert;
    if events != [] {
      WithinMore(tenant, s, events[..|events| - 1], late, stray, bare, late', stray', bare');
    }
  }

  /** Graph readers get nothing but the latest plan's evidence if and only if no worker writes after its lease lapsed. */
  lemma OnlyThePlanIff(tenant: string, late: bool, stray: bool, bare: bool)
    ensures OnlyThePlanOver(tenant, late, stray, bare) <==> !late
  {
    hide Run, Within, SaysOnlyThePlan, SaysThePlan, Start;
    if late {
      var (r, e) := Sample();
      LateWriteExample(tenant, r, e);
      WithinMore(tenant, Alone(r), LateRun(r, e), true, false, false, late, stray, bare);
      AloneStarts(r);
    } else {
      forall s, events, user, id, privacy | Start(s) && Within(tenant, s, events, late, stray, bare)
        ensures SaysOnlyThePlan(tenant, Run(tenant, s, events), user, id, privacy)
      {
        GraphAnswersFromLatestPlan(tenant, s, events, stray, bare, user, id, privacy);
      }
    }
  }

  /** They get all of it if and only if, besides, nobody removes a readable memory's edges and no row is written without a plan. */
  lemma ThePlanIff(tenant: string, late: bool, stray: bool, bare: bool)
    ensures ThePlanOver(tenant, late, stray, bare) <==> !late && !stray && !bare
  {
    hide Run, Within, SaysOnlyThePlan, SaysThePlan, Start;
    var (r, e) := Sample();
    AloneStarts(r);
    if late {
      LateWriteExample(tenant, r, e);
      WithinMore(tenant, Alone(r), LateRun(r, e), true, false, false, late, stray, bare);
    } else if stray {
      StrayRemovalExample(tenant, r, e);
      WithinMore(tenant, Alone(r), StrayRun(r, e), false, true, false, late, stray, bare);
    } else if bare {
      BareUpsertExample(tenant, r, e);
      WithinMore(tenant, Alone(r), BareRun(r, e), false, false, true, late, stray, bare);
    } else {
      forall s, events, user, id, privacy | Start(s) && Within(tenant, s, events, late, stray, bare)
        ensures SaysThePlan(tenant, Run(tenant, s, events), user, id, privacy)
      {
        GraphAnswersLatestPlan(tenant, s, events, user, id, privacy);
      }
    }
  }
}
