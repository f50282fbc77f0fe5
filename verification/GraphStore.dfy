/**
 The graph database: nodes by scope and key, relationships by scope and triple, each transaction one
 step. Nodes are last-writer-wins; relationships stand for a map from source memory to evidence.
 */
module GraphStore {
  import opened Wrappers
  import opened GraphEdges
  import opened GraphModel
  import opened Sequences

  datatype Scope = Scope(tenant: string, user: string)

  datatype NodeKey = NodeKey(scope: Scope, key: string)

  datatype EdgeKey = EdgeKey(scope: Scope, fromKey: string, relation: string, toKey: string)

  datatype NodeRow = NodeRow(name: string, confidence: real, createdAt: GraphModel.Stamp)

  type Edges = map<EdgeKey, EdgeRow>

  type Nodes = map<NodeKey, NodeRow>

  // ---- Relationships ----

  function KeyOf(scope: Scope, e: GraphEdge): EdgeKey {
    EdgeKey(scope, e.fromKey, e.relation, e.toKey)
  }

  predicate Listed(edges: Edges, scope: Scope, m: Id, k: EdgeKey) {
    k in edges && k.scope == scope && m in edges[k].ids
  }

  /** The row without the source; gone when that was its last one. */
  function Removed(row: EdgeRow, m: Id): Option<EdgeRow> {
    var r := RemoveSource(row, m);
    if r.ids == [] then None else Some(r)
  }

  function RemoveMemory(edges: Edges, scope: Scope, m: Id): Edges {
    map k | k in edges && (Listed(edges, scope, m, k) ==> Removed(edges[k], m).Some?) ::
      if Listed(edges, scope, m, k) then Removed(edges[k], m).value else edges[k]
  }

  function AddEdge(edges: Edges, scope: Scope, m: Id, e: GraphEdge): Edges {
    var k := KeyOf(scope, e);
    var row := if k in edges then edges[k] else BlankRow(e.createdAt);
    edges[k := AppendSource(row, m, Evidence(e.confidence, e.lastConfirmed))]
  }

  function AddEdges(edges: Edges, scope: Scope, m: Id, es: seq<GraphEdge>): Edges {
    if es == [] then edges else AddEdge(AddEdges(edges, scope, m, es[..|es| - 1]), scope, m, es[|es| - 1])
  }

  /** One source's contribution replaced. */
  function Replace(edges: Edges, scope: Scope, m: Id, es: seq<GraphEdge>): Edges {
    AddEdges(RemoveMemory(edges, scope, m), scope, m, es)
  }

  function Merge(edges: Edges, e: GraphEdge): Edges {
    var k := KeyOf(Scope(e.tenant, e.user), e);
    var row := if k in edges then edges[k] else BlankRow(e.createdAt);
    edges[k := MergeSources(row, e.sources, Evidence(e.confidence, e.lastConfirmed))]
  }

  // ---- The abstract graph: who says what about which triple ----

  ghost function EvidenceIn(edges: Edges, k: EdgeKey, id: Id): Option<Evidence> {
    if k in edges then EvidenceOf(edges[k], id) else None
  }

  /** The evidence a list of edges proposes for a key. */
  function Proposed(scope: Scope, es: seq<GraphEdge>, k: EdgeKey): Option<Evidence> {
    if es == [] then None
    else
      var e := es[|es| - 1];
      if KeyOf(scope, e) == k then Some(Evidence(e.confidence, e.lastConfirmed)) else Proposed(scope, es[..|es| - 1], k)
  }

  predicate DistinctTriples(es: seq<GraphEdge>) {
    forall i, j :: 0 <= i < j < |es| ==>
      !(es[i].fromKey == es[j].fromKey && es[i].relation == es[j].relation && es[i].toKey == es[j].toKey)
  }

  predicate Scored(es: seq<GraphEdge>) {
    forall i :: 0 <= i < |es| ==> es[i].confidence >= 0.0
  }

  /** Each stored edge has at least one source and no source twice; older rows may have short lists. */
  predicate ValidEdges(edges: Edges) {
    forall k :: k in edges ==> ValidRow(edges[k])
  }

  predicate ValidRow(row: EdgeRow) {
    Distinct(row.ids) && NonNegative(row) && row.ids != []
  }

  /** Each stored edge has complete lists and true maxima. */
  predicate SoundEdges(edges: Edges) {
    forall k :: k in edges ==> Sound(edges[k]) && edges[k].ids != []
  }

  lemma RemoveMemoryValid(edges: Edges, scope: Scope, m: Id)
    requires ValidEdges(edges)
    ensures ValidEdges(RemoveMemory(edges, scope, m))
    ensures SoundEdges(edges) ==> SoundEdges(RemoveMemory(edges, scope, m))
    ensures forall k: EdgeKey :: k.scope == scope && k in RemoveMemory(edges, scope, m) ==> m !in RemoveMemory(edges, scope, m)[k].ids
  {
    hide RemoveSource, Distinct, NonNegative, Full;
    forall k | k in edges
      ensures Sound(RemoveSource(edges[k], m)) && m !in RemoveSource(edges[k], m).ids
    {
      RemoveSourceSound(edges[k], m);
      RemoveSourceMeans(edges[k], m, m);
    }
  }

  lemma RemoveMemoryMeans(edges: Edges, scope: Scope, m: Id, k: EdgeKey, id: Id)
    requires ValidEdges(edges)
    ensures EvidenceIn(RemoveMemory(edges, scope, m), k, id) == if k.scope == scope && id == m then None else EvidenceIn(edges, k, id)
  {
    hide RemoveSource, Distinct, NonNegative;
    if k in edges {
      RemoveSourceMeans(edges[k], m, id);
    }
  }

  /** The edge may be added: its triple does not list the source yet. */
  predicate Free(edges: Edges, scope: Scope, m: Id, e: GraphEdge) {
    !Listed(edges, scope, m, KeyOf(scope, e))
  }

  lemma AddEdgeMeans(edges: Edges, scope: Scope, m: Id, e: GraphEdge, k: EdgeKey, id: Id)
    requires ValidEdges(edges) && e.confidence >= 0.0 && Free(edges, scope, m, e)
    ensures EvidenceIn(AddEdge(edges, scope, m, e), k, id) ==
            if k == KeyOf(scope, e) && id == m then Some(Evidence(e.confidence, e.lastConfirmed)) else EvidenceIn(edges, k, id)
  {
    hide AppendSource, Distinct, NonNegative;
    var row := if KeyOf(scope, e) in edges then edges[KeyOf(scope, e)] else BlankRow(e.createdAt);
    BlankRowEmpty(e.createdAt);
    AppendSourceMeans(row, m, Evidence(e.confidence, e.lastConfirmed), id);
  }

  lemma BlankRowEmpty(createdAt: GraphEdges.Stamp)
    ensures Distinct(BlankRow(createdAt).ids) && NonNegative(BlankRow(createdAt)) && BlankRow(createdAt).ids == []
    ensures forall id :: EvidenceOf(BlankRow(createdAt), id).None?
  {
  }

  lemma AddEdgeValid(edges: Edges, scope: Scope, m: Id, e: GraphEdge)
    requires ValidEdges(edges) && e.confidence >= 0.0
    ensures ValidEdges(AddEdge(edges, scope, m, e)) <==> Free(edges, scope, m, e)
    ensures Free(edges, scope, m, e) && SoundEdges(edges) ==> SoundEdges(AddEdge(edges, scope, m, e))
  {
    hide AppendSource, Distinct, NonNegative, Full;
    var k := KeyOf(scope, e);
    var row := if k in edges then edges[k] else BlankRow(e.createdAt);
    BlankRowEmpty(e.createdAt);
    AppendSourceSound(row, m, Evidence(e.confidence, e.lastConfirmed));
    AppendListsSource(row, m, Evidence(e.confidence, e.lastConfirmed));
    if !Free(edges, scope, m, e) {
      assert !ValidRow(AddEdge(edges, scope, m, e)[k]);
    }
  }

  lemma AppendListsSource(row: EdgeRow, m: Id, v: Evidence)
    ensures AppendSource(row, m, v).ids == row.ids + [m]
  {
  }

  /** Adding edges of distinct triples for a source that is not listed yet. */
  lemma {:induction false} AddEdgesMeans(edges: Edges, scope: Scope, m: Id, es: seq<GraphEdge>)
    requires ValidEdges(edges) && Scored(es) && DistinctTriples(es)
    requires forall k: EdgeKey :: k.scope == scope && k in edges ==> m !in edges[k].ids
    ensures ValidEdges(AddEdges(edges, scope, m, es))
    ensures SoundEdges(edges) ==> SoundEdges(AddEdges(edges, scope, m, es))
    ensures forall k: EdgeKey :: k.scope == scope && Proposed(scope, es, k).None? ==> !Listed(AddEdges(edges, scope, m, es), scope, m, k)
    ensures forall k: EdgeKey, id: Id :: EvidenceIn(AddEdges(edges, scope, m, es), k, id) ==
              if k.scope == scope && id == m then Proposed(scope, es, k) else EvidenceIn(edges, k, id)
  {
    hide AddEdge, EvidenceOf, Sound, ValidRow;
    if es == [] {
      forall k: EdgeKey | k.scope == scope
        ensures EvidenceIn(edges, k, m).None?
      {
        NoEvidence(edges, k, m);
      }
    } else {
      var n := |es| - 1;
      var before, e := AddEdges(edges, scope, m, es[..n]), es[n];
      AddEdgesMeans(edges, scope, m, es[..n]);
      NotProposedYet(scope, es);
      AddEdgeValid(before, scope, m, e);
      forall k: EdgeKey, id: Id
        ensures EvidenceIn(AddEdge(before, scope, m, e), k, id) ==
                if k == KeyOf(scope, e) && id == m then Some(Evidence(e.confidence, e.lastConfirmed)) else EvidenceIn(before, k, id)
      {
        AddEdgeMeans(before, scope, m, e, k, id);
      }
      forall k: EdgeKey | k.scope == scope && Proposed(scope, es, k).None?
        ensures !Listed(AddEdges(edges, scope, m, es), scope, m, k)
      {
        AddEdgeElsewhere(before, scope, m, e, k);
      }
    }
  }

  lemma NoEvidence(edges: Edges, k: EdgeKey, id: Id)
    requires k in edges ==> id !in edges[k].ids
    ensures EvidenceIn(edges, k, id).None?
  {
  }

  lemma AddEdgeElsewhere(edges: Edges, scope: Scope, m: Id, e: GraphEdge, k: EdgeKey)
    requires k != KeyOf(scope, e)
    ensures (k in AddEdge(edges, scope, m, e) <==> k in edges) && (k in edges ==> AddEdge(edges, scope, m, e)[k] == edges[k])
  {
  }

  lemma NotProposedYet(scope: Scope, es: seq<GraphEdge>)
    requires es != [] && DistinctTriples(es)
    ensures Proposed(scope, es[..|es| - 1], KeyOf(scope, es[|es| - 1])).None?
  {
    ProposedIff(scope, es[..|es| - 1], KeyOf(scope, es[|es| - 1]));
  }

  lemma {:induction false} ProposedIff(scope: Scope, es: seq<GraphEdge>, k: EdgeKey)
    ensures Proposed(scope, es, k).Some? <==> exists i :: 0 <= i < |es| && KeyOf(scope, es[i]) == k
  {
    if es != [] {
      var n := |es| - 1;
      ProposedIff(scope, es[..n], k);
      if Proposed(scope, es, k).Some? && KeyOf(scope, es[n]) != k {
        var i :| 0 <= i < n && KeyOf(scope, es[..n][i]) == k;
        assert KeyOf(scope, es[i]) == k;
      }
      forall i | 0 <= i < |es| && KeyOf(scope, es[i]) == k
        ensures Proposed(scope, es, k).Some?
      {
        assert i < n ==> es[..n][i] == es[i];
      }
    }
  }

  /**
   The refinement: over edges with distinct triples, a replacement sets the source's evidence in its
   scope to exactly what the edges propose and touches no other evidence. It leaves no edge without a
   source, no source twice in an edge, and complete edges stay complete with true maxima.
   */
  lemma ReplaceMeans(edges: Edges, scope: Scope, m: Id, es: seq<GraphEdge>)
    requires ValidEdges(edges) && Scored(es) && DistinctTriples(es)
    ensures ValidEdges(Replace(edges, scope, m, es))
    ensures SoundEdges(edges) ==> SoundEdges(Replace(edges, scope, m, es))
    ensures forall k: EdgeKey, id: Id :: EvidenceIn(Replace(edges, scope, m, es), k, id) ==
              if k.scope == scope && id == m then Proposed(scope, es, k) else EvidenceIn(edges, k, id)
  {
    hide ValidEdges, SoundEdges, EvidenceIn, RemoveMemory, AddEdges, Proposed;
    RemoveMemoryValid(edges, scope, m);
    AddEdgesMeans(RemoveMemory(edges, scope, m), scope, m, es);
    forall k: EdgeKey, id: Id
      ensures EvidenceIn(RemoveMemory(edges, scope, m), k, id) == if k.scope == scope && id == m then None else EvidenceIn(edges, k, id)
    {
      RemoveMemoryMeans(edges, scope, m, k, id);
    }
  }

  /** With rows applied one after another, a repeated triple lists its source twice: validity is kept if and only if the triples are distinct. */
  lemma ReplaceValidIff(edges: Edges, scope: Scope, m: Id, es: seq<GraphEdge>)
    requires ValidEdges(edges) && Scored(es)
    ensures ValidEdges(Replace(edges, scope, m, es)) <==> DistinctTriples(es)
  {
    if DistinctTriples(es) {
      ReplaceMeans(edges, scope, m, es);
    } else {
      RemoveMemoryValid(edges, scope, m);
      RepeatedTriple(RemoveMemory(edges, scope, m), scope, m, es);
    }
  }

  ghost predicate ListsTwice(edges: Edges) {
    exists k :: k in edges && !Distinct(edges[k].ids)
  }

  lemma {:induction false} RepeatedTriple(edges: Edges, scope: Scope, m: Id, es: seq<GraphEdge>)
    requires ValidEdges(edges) && Scored(es) && !DistinctTriples(es)
    requires forall k: EdgeKey :: k.scope == scope && k in edges ==> m !in edges[k].ids
    ensures ListsTwice(AddEdges(edges, scope, m, es))
  {
    hide AddEdge, ValidEdges, EvidenceIn, ListsTwice;
    var n := |es| - 1;
    var before, e := AddEdges(edges, scope, m, es[..n]), es[n];
    if DistinctTriples(es[..n]) {
      AddEdgesMeans(edges, scope, m, es[..n]);
      var i :| 0 <= i < n && es[i].fromKey == e.fromKey && es[i].relation == e.relation && es[i].toKey == e.toKey;
      assert KeyOf(scope, es[..n][i]) == KeyOf(scope, e);
      ProposedIff(scope, es[..n], KeyOf(scope, e));
      ListedTwice(before, scope, m, e);
    } else {
      RepeatedTriple(edges, scope, m, es[..n]);
      StillTwice(before, scope, m, e);
    }
  }

  lemma ListedTwice(edges: Edges, scope: Scope, m: Id, e: GraphEdge)
    requires EvidenceIn(edges, KeyOf(scope, e), m).Some?
    ensures ListsTwice(AddEdge(edges, scope, m, e))
  {
    var k := KeyOf(scope, e);
    var ids := edges[k].ids;
    AppendListsSource(edges[k], m, Evidence(e.confidence, e.lastConfirmed));
    var i :| 0 <= i < |ids| && ids[i] == m;
    assert (ids + [m])[i] == (ids + [m])[|ids|];
    assert k in AddEdge(edges, scope, m, e);
  }

  lemma StillTwice(edges: Edges, scope: Scope, m: Id, e: GraphEdge)
    requires ListsTwice(edges)
    ensures ListsTwice(AddEdge(edges, scope, m, e))
  {
    hide AppendSource;
    var k :| k in edges && !Distinct(edges[k].ids);
    var i, j :| 0 <= i < j < |edges[k].ids| && edges[k].ids[i] == edges[k].ids[j];
    AppendListsSource(edges[k], m, Evidence(e.confidence, e.lastConfirmed));
    var after := AddEdge(edges, scope, m, e);
    assert k in after && after[k].ids[i] == after[k].ids[j];
  }

  lemma MergeMeans(edges: Edges, e: GraphEdge, k: EdgeKey, id: Id)
    requires ValidEdges(edges) && e.confidence >= 0.0
    ensures EvidenceIn(Merge(edges, e), k, id) ==
            if k == KeyOf(Scope(e.tenant, e.user), e) && id in e.sources then Some(Evidence(e.confidence, e.lastConfirmed)) else EvidenceIn(edges, k, id)
  {
    hide MergeSources, Distinct, NonNegative;
    var key := KeyOf(Scope(e.tenant, e.user), e);
    var row := if key in edges then edges[key] else BlankRow(e.createdAt);
    BlankRowEmpty(e.createdAt);
    MergeSourcesMeans(row, e.sources, Evidence(e.confidence, e.lastConfirmed), id);
  }

  lemma MergeValid(edges: Edges, e: GraphEdge)
    requires ValidEdges(edges) && e.confidence >= 0.0 && e.sources != []
    ensures ValidEdges(Merge(edges, e))
    ensures SoundEdges(edges) ==> SoundEdges(Merge(edges, e))
  {
    hide MergeSources, Distinct, NonNegative, Full;
    var k := KeyOf(Scope(e.tenant, e.user), e);
    var row := if k in edges then edges[k] else BlankRow(e.createdAt);
    BlankRowEmpty(e.createdAt);
    MergeSourcesSound(row, e.sources, Evidence(e.confidence, e.lastConfirmed));
    MergeListsSources(row, e.sources, Evidence(e.confidence, e.lastConfirmed));
  }

  lemma MergeListsSources(row: EdgeRow, sources: seq<Id>, v: Evidence)
    requires sources != []
    ensures MergeSources(row, sources, v).ids != []
  {
    if row.ids == [] {
      assert sources[0] in Added(row.ids, sources);
    }
  }

  // ---- Convergence ----

  datatype Write = Replaces(scope: Scope, m: Id, es: seq<GraphEdge>) | Redacts(scope: Scope, m: Id)

  predicate WriteFits(w: Write) {
    w.Replaces? ==> Scored(w.es) && DistinctTriples(w.es)
  }

  predicate WritesFit(ws: seq<Write>) {
    forall i :: 0 <= i < |ws| ==> WriteFits(ws[i])
  }

  function Apply(edges: Edges, w: Write): Edges {
    match w
    case Replaces(scope, m, es) => Replace(edges, scope, m, es)
    case Redacts(scope, m) => RemoveMemory(edges, scope, m)
  }

  function ApplyAll(edges: Edges, ws: seq<Write>): Edges {
    if ws == [] then edges else Apply(ApplyAll(edges, ws[..|ws| - 1]), ws[|ws| - 1])
  }

  /** The last thing the writes say about a source memory; a redaction says nothing holds. */
  function Latest(ws: seq<Write>, scope: Scope, m: Id): Option<seq<GraphEdge>> {
    if ws == [] then None
    else
      var w := ws[|ws| - 1];
      if w.scope == scope && w.m == m then Some(if w.Replaces? then w.es else []) else Latest(ws[..|ws| - 1], scope, m)
  }

  /** What the graph should say about a source after the writes. */
  ghost function Expected(edges: Edges, ws: seq<Write>, k: EdgeKey, id: Id): Option<Evidence> {
    match Latest(ws, k.scope, id)
    case None => EvidenceIn(edges, k, id)
    case Some(es) => Proposed(k.scope, es, k)
  }

  lemma ApplyMeans(edges: Edges, w: Write)
    requires ValidEdges(edges) && WriteFits(w)
    ensures ValidEdges(Apply(edges, w))
    ensures SoundEdges(edges) ==> SoundEdges(Apply(edges, w))
    ensures forall k: EdgeKey, id: Id :: EvidenceIn(Apply(edges, w), k, id) ==
              if k.scope == w.scope && id == w.m then Proposed(w.scope, if w.Replaces? then w.es else [], k) else EvidenceIn(edges, k, id)
  {
    hide ValidEdges, SoundEdges, EvidenceIn, Replace, RemoveMemory;
    match w {
      case Replaces(scope, m, es) => ReplaceMeans(edges, scope, m, es);
      case Redacts(scope, m) =>
        RemoveMemoryValid(edges, scope, m);
        forall k: EdgeKey, id: Id
          ensures EvidenceIn(RemoveMemory(edges, scope, m), k, id) == if k.scope == scope && id == m then None else EvidenceIn(edges, k, id)
        {
          RemoveMemoryMeans(edges, scope, m, k, id);
        }
    }
  }

  /** Whatever the sequence of writes, a source's evidence in its scope is what its last write proposed; other sources and scopes are as they were. */
  lemma {:induction false} LastWriteDecides(edges: Edges, ws: seq<Write>)
    requires ValidEdges(edges) && WritesFit(ws)
    ensures ValidEdges(ApplyAll(edges, ws))
    ensures SoundEdges(edges) ==> SoundEdges(ApplyAll(edges, ws))
    ensures forall k: EdgeKey, id: Id :: EvidenceIn(ApplyAll(edges, ws), k, id) == Expected(edges, ws, k, id)
  {
    hide ValidEdges, SoundEdges, EvidenceIn, Apply, WriteFits, Proposed;
    if ws != [] {
      var before := ws[..|ws| - 1];
      LastWriteDecides(edges, before);
      ApplyMeans(ApplyAll(edges, before), ws[|ws| - 1]);
    }
  }

  /** Two graphs with the same relationships: same triples, same sources, same evidence, same cached values. Creation times depend on history and are left out. */
  ghost predicate Agree(a: Edges, b: Edges) {
    && a.Keys == b.Keys
    && (forall k :: k in a && k in b ==>
          a[k].confidence == b[k].confidence && a[k].lastConfirmed == b[k].lastConfirmed && multiset(a[k].ids) == multiset(b[k].ids))
    && (forall k: EdgeKey, id: Id :: EvidenceIn(a, k, id) == EvidenceIn(b, k, id))
  }

  lemma RowIffEvidence(edges: Edges, k: EdgeKey)
    requires ValidEdges(edges)
    ensures k in edges <==> exists id :: EvidenceIn(edges, k, id).Some?
  {
    if k in edges {
      assert edges[k].ids[0] in edges[k].ids;
      assert EvidenceIn(edges, k, edges[k].ids[0]).Some?;
    }
  }

  /** The evidence map determines the whole graph. */
  lemma EvidenceDeterminesGraph(a: Edges, b: Edges)
    requires ValidEdges(a) && SoundEdges(a) && ValidEdges(b) && SoundEdges(b)
    requires forall k: EdgeKey, id: Id :: EvidenceIn(a, k, id) == EvidenceIn(b, k, id)
    ensures Agree(a, b)
  {
    hide Sound, ValidRow, EvidenceOf;
    forall k
      ensures k in a <==> k in b
    {
      RowIffEvidence(a, k);
      RowIffEvidence(b, k);
    }
    forall k | k in a && k in b
      ensures a[k].confidence == b[k].confidence && a[k].lastConfirmed == b[k].lastConfirmed && multiset(a[k].ids) == multiset(b[k].ids)
    {
      forall id
        ensures EvidenceOf(a[k], id) == EvidenceOf(b[k], id)
      {
        assert EvidenceIn(a, k, id) == EvidenceIn(b, k, id);
      }
      EvidenceDecides(a[k], b[k]);
    }
  }

  /** Convergence: the graph depends only on the last write of each source memory. */
  lemma Converges(edges: Edges, one: seq<Write>, two: seq<Write>)
    requires ValidEdges(edges) && SoundEdges(edges) && WritesFit(one) && WritesFit(two)
    requires forall scope, m :: Latest(one, scope, m) == Latest(two, scope, m)
    ensures Agree(ApplyAll(edges, one), ApplyAll(edges, two))
  {
    hide ValidEdges, SoundEdges, EvidenceIn, Latest, ApplyAll;
    LastWriteDecides(edges, one);
    LastWriteDecides(edges, two);
    forall k: EdgeKey, id: Id
      ensures Expected(edges, one, k, id) == Expected(edges, two, k, id)
    {
      assert Latest(one, k.scope, id) == Latest(two, k.scope, id);
    }
    EvidenceDeterminesGraph(ApplyAll(edges, one), ApplyAll(edges, two));
  }

  /** Instances: repeating a write changes nothing, writes of different sources commute, and an empty replacement is a redaction. */
  lemma WritesSettle(edges: Edges, a: Write, b: Write)
    requires ValidEdges(edges) && SoundEdges(edges) && WriteFits(a) && WriteFits(b)
    ensures Agree(Apply(Apply(edges, a), a), Apply(edges, a))
    ensures (a.scope, a.m) != (b.scope, b.m) ==> Agree(Apply(Apply(edges, a), b), Apply(Apply(edges, b), a))
    ensures Apply(edges, Replaces(a.scope, a.m, [])) == Apply(edges, Redacts(a.scope, a.m))
  {
    hide ValidEdges, SoundEdges, Agree, Replace, RemoveMemory;
    Unfold(edges, a, a);
    Unfold(edges, a, b);
    Unfold(edges, b, a);
    Converges(edges, [a, a], [a]);
    if (a.scope, a.m) != (b.scope, b.m) {
      Converges(edges, [a, b], [b, a]);
    }
    assert AddEdges(RemoveMemory(edges, a.scope, a.m), a.scope, a.m, []) == RemoveMemory(edges, a.scope, a.m);
    EmptyReplace(edges, a.scope, a.m);
  }

  lemma EmptyReplace(edges: Edges, scope: Scope, m: Id)
    ensures Replace(edges, scope, m, []) == RemoveMemory(edges, scope, m)
  {
  }

  lemma Unfold(edges: Edges, a: Write, b: Write)
    ensures ApplyAll(edges, [a]) == Apply(edges, a)
    ensures ApplyAll(edges, [a, b]) == Apply(Apply(edges, a), b)
    ensures forall scope, m :: Latest([a], scope, m) == if a.scope == scope && a.m == m then Some(if a.Replaces? then a.es else []) else None
    ensures forall scope, m :: Latest([a, b], scope, m) ==
              if b.scope == scope && b.m == m then Some(if b.Replaces? then b.es else []) else Latest([a], scope, m)
  {
    hide Apply;
    assert [a][..0] == [] && [a, b][..1] == [a];
  }

  // ---- The database ----

  function PutNode(nodes: Nodes, n: GraphNode): Nodes {
    var k := NodeKey(Scope(n.tenant, n.user), n.key);
    nodes[k := NodeRow(n.name, n.confidence, if k in nodes then nodes[k].createdAt else n.createdAt)]
  }

  function PutNodes(nodes: Nodes, ns: seq<GraphNode>): Nodes {
    if ns == [] then nodes else PutNode(PutNodes(nodes, ns[..|ns| - 1]), ns[|ns| - 1])
  }

  predicate EndpointsExist(nodes: Nodes, k: EdgeKey) {
    NodeKey(k.scope, k.fromKey) in nodes && NodeKey(k.scope, k.toKey) in nodes
  }

  predicate Anchored(nodes: Nodes, edges: Edges) {
    forall k :: k in edges ==> EndpointsExist(nodes, k)
  }

  lemma {:induction false} PutNodesHolds(nodes: Nodes, ns: seq<GraphNode>)
    ensures nodes.Keys <= PutNodes(nodes, ns).Keys
    ensures forall i :: 0 <= i < |ns| ==> NodeKey(Scope(ns[i].tenant, ns[i].user), ns[i].key) in PutNodes(nodes, ns)
  {
    if ns != [] {
      var n := |ns| - 1;
      PutNodesHolds(nodes, ns[..n]);
      forall i | 0 <= i < |ns|
        ensures NodeKey(Scope(ns[i].tenant, ns[i].user), ns[i].key) in PutNodes(nodes, ns)
      {
        assert i < n ==> ns[..n][i] == ns[i];
      }
    }
  }

  lemma RemoveMemoryAnchored(nodes: Nodes, edges: Edges, scope: Scope, m: Id)
    requires Anchored(nodes, edges)
    ensures Anchored(nodes, RemoveMemory(edges, scope, m))
  {
    hide RemoveSource;
  }

  datatype MergeOutcome = Merged | EndpointsMissing | Rejected

  class GraphDatabase {
    var nodes: Nodes
    var edges: Edges

    ghost predicate Valid()
      reads this
    {
      ValidEdges(edges) && Anchored(nodes, edges)
    }

    /** Visits every relationship of the scope that lists the source. */
    method RemoveSourceEverywhere(scope: Scope, m: Id)
      modifies this`edges
      ensures edges == RemoveMemory(old(edges), scope, m)
    {
      hide Removed;
      ghost var before := edges;
      var todo := edges.Keys;
      while todo != {}
        invariant todo <= before.Keys
        invariant forall k :: k in todo ==> k in edges && edges[k] == before[k]
        invariant forall k :: k !in todo ==> (k in edges <==> k in RemoveMemory(before, scope, m))
        invariant forall k :: k !in todo && k in edges ==> edges[k] == RemoveMemory(before, scope, m)[k]
        decreases todo
      {
        var k :| k in todo;
        if k.scope == scope && m in edges[k].ids {
          var rest := Removed(edges[k], m);
          edges := if rest.Some? then edges[k := rest.value] else edges - {k};
        }
        todo := todo - {k};
      }
      assert edges == RemoveMemory(before, scope, m);
    }

    method PutAllNodes(ns: seq<GraphNode>)
      modifies this`nodes
      ensures nodes == PutNodes(old(nodes), ns)
    {
      for i := 0 to |ns|
        invariant nodes == PutNodes(old(nodes), ns[..i])
      {
        assert ns[..i + 1][..i] == ns[..i];
        nodes := PutNode(nodes, ns[i]);
      }
      assert ns[..|ns|] == ns;
    }

    /** Adds each edge whose endpoints are found, and counts them. */
    method AddAllEdges(scope: Scope, m: Id, es: seq<GraphEdge>) returns (count: nat)
      requires Anchored(nodes, edges) && forall i :: 0 <= i < |es| ==> EndpointsExist(nodes, KeyOf(scope, es[i]))
      modifies this`edges
      ensures edges == AddEdges(old(edges), scope, m, es) && Anchored(nodes, edges) && count == |es|
    {
      hide AppendSource;
      count := 0;
      for i := 0 to |es|
        invariant count == i
        invariant edges == AddEdges(old(edges), scope, m, es[..i])
        invariant Anchored(nodes, edges)
      {
        assert es[..i + 1][..i] == es[..i];
        if EndpointsExist(nodes, KeyOf(scope, es[i])) {
          edges := AddEdge(edges, scope, m, es[i]);
          count := count + 1;
        }
      }
      assert es[..|es|] == es;
    }

    /** One transaction: the old contribution out, the nodes in, the new contribution in. */
    method ReplaceMemoryGraph(cs: Casing, scope: Scope, m: Id, ns: seq<GraphNode>, es: seq<GraphEdge>) returns (acknowledged: bool)
      requires Valid()
      modifies this
      ensures acknowledged <==> ValidSourceGraph(cs, scope.tenant, scope.user, m, ns, es)
      ensures acknowledged ==> edges == Replace(old(edges), scope, m, es) && nodes == PutNodes(old(nodes), ns)
      ensures !acknowledged ==> edges == old(edges) && nodes == old(nodes)
      ensures Anchored(nodes, edges) && (Valid() <==> !acknowledged || DistinctTriples(es))
    {
      hide ValidEdges, RemoveMemory, AddEdges, PutNodes, DistinctTriples, ValidSourceGraph;
      if !ValidSourceGraph(cs, scope.tenant, scope.user, m, ns, es) {
        return false;
      }
      RemoveSourceEverywhere(scope, m);
      RemoveMemoryAnchored(nodes, old(edges), scope, m);
      PutAllNodes(ns);
      PutNodesHolds(old(nodes), ns);
      forall i | 0 <= i < |es|
        ensures EndpointsExist(nodes, KeyOf(scope, es[i])) && es[i].confidence >= 0.0
      {
        EndpointsStored(cs, scope, m, nodes, ns, es, i);
      }
      var count := AddAllEdges(scope, m, es);
      acknowledged := count == |es|;
      ReplaceValidIff(old(edges), scope, m, es);
    }

    /** redact_memory_edges leaves exactly what an empty replacement leaves, and does not touch the nodes. */
    method RedactMemoryEdges(scope: Scope, m: Id) returns (accepted: bool)
      requires Valid()
      modifies this`edges
      ensures Valid()
      ensures accepted <==> scope.tenant != "" && scope.user != "" && m != ""
      ensures edges == if accepted then Replace(old(edges), scope, m, []) else old(edges)
    {
      if scope.tenant == "" || scope.user == "" || m == "" {
        return false;
      }
      RemoveMemoryValid(edges, scope, m);
      RemoveSourceEverywhere(scope, m);
      EmptyReplace(old(edges), scope, m);
      return true;
    }

    method MergeEdge(e: GraphEdge) returns (outcome: MergeOutcome)
      requires Valid()
      modifies this`edges
      ensures Valid()
      ensures outcome == if !ValidEdge(e) then Rejected
                         else if NodeKey(Scope(e.tenant, e.user), e.fromKey) in nodes && NodeKey(Scope(e.tenant, e.user), e.toKey) in nodes then Merged
                         else EndpointsMissing
      ensures edges == if outcome.Merged? then Merge(old(edges), e) else old(edges)
    {
      hide ValidEdges, MergeSources;
      if !ValidEdge(e) {
        return Rejected;
      }
      if !EndpointsExist(nodes, KeyOf(Scope(e.tenant, e.user), e)) {
        return EndpointsMissing;
      }
      MergeValid(edges, e);
      edges := Merge(edges, e);
      return Merged;
    }
  }

  lemma EndpointsStored(cs: Casing, scope: Scope, m: Id, nodes: Nodes, ns: seq<GraphNode>, es: seq<GraphEdge>, i: nat)
    requires ValidSourceGraph(cs, scope.tenant, scope.user, m, ns, es) && i < |es|
    requires forall j :: 0 <= j < |ns| ==> NodeKey(Scope(ns[j].tenant, ns[j].user), ns[j].key) in nodes
    ensures EndpointsExist(nodes, KeyOf(scope, es[i])) && es[i].confidence >= 0.0
  {
    hide ValidNode, ValidComponent;
    assert HasKey(ns, es[i].fromKey) && HasKey(ns, es[i].toKey);
    var from :| 0 <= from < |ns| && ns[from].key == es[i].fromKey;
    var to :| 0 <= to < |ns| && ns[to].key == es[i].toKey;
  }
}
