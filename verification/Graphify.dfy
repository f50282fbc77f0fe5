/** From a record and its hints to a deduplicated evidence graph that every store accepts. */
module Graphify {
  import opened Wrappers
  import opened GraphModel
  import opened SortDedup
  import Contradictions

  datatype Source = Source(id: string, tenant: string, user: string, content: string, entities: seq<string>)

  datatype Output = Output(
    nodes: seq<GraphNode>, relationships: seq<GraphEdge>, contradictions: seq<string>, contradictionClass: string, evidenceCount: nat)

  type Collected = (seq<GraphNode>, seq<GraphEdge>)

  const U32_MAX: nat := 0xFFFF_FFFF

  function Contains(s: string, sub: string): bool {
    sub <= s || (s != [] && Contains(s[1..], sub))
  }

  function InferLabel(cs: Casing, entity: string): (r: string)
    ensures r in NODE_LABELS
  {
    var lowered := MapChars(entity, cs.lower);
    if Contains(lowered, "postgres") || Contains(lowered, "redis") || Contains(lowered, "neo4j") || Contains(lowered, "qdrant") then "Technology"
    else if entity != [] && cs.isUpper(entity[0]) then "Entity"
    else "Concept"
  }

  function HeuristicRelation(cs: Casing, content: string): string {
    var lowered := MapChars(content, cs.lower);
    if Contains(lowered, " use ") || Contains(lowered, " using ") then "USES"
    else if Contains(lowered, " owns ") || Contains(lowered, " owner ") then "OWNS"
    else if Contains(lowered, " decide") || Contains(lowered, " chose ") then "DECIDED"
    else "RELATED_TO"
  }

  function HeuristicHints(cs: Casing, r: Source): seq<GraphHint> {
    if |r.entities| < 2 then []
    else
      seq(|r.entities| - 1, i requires 0 <= i < |r.entities| - 1 =>
        GraphHint(InferLabel(cs, r.entities[i]), r.entities[i], HeuristicRelation(cs, r.content),
                  InferLabel(cs, r.entities[i + 1]), r.entities[i + 1], 0.65))
  }

  predicate ValidHint(cs: Casing, h: GraphHint) {
    && Trim(h.fromKind) in NODE_LABELS && Trim(h.toKind) in NODE_LABELS
    && MapChars(Trim(h.relation), cs.upper) in RELATIONSHIP_TYPES && ValidScore(h.confidence)
  }

  function EntityNode(cs: Casing, r: Source, entity: string, now: Stamp): Result<GraphNode, string> {
    NewNode(cs, r.tenant, r.user, InferLabel(cs, entity), entity, 0.8, now)
  }

  /** The nodes of the first entities; the first failure ends the collection. */
  function EntityNodes(cs: Casing, r: Source, n: nat, now: Stamp): Result<seq<GraphNode>, string>
    requires n <= |r.entities|
  {
    if n == 0 then Success([])
    else
      var before := EntityNodes(cs, r, n - 1, now);
      if before.Failure? || Trim(r.entities[n - 1]) == [] then before
      else
        var node := EntityNode(cs, r, r.entities[n - 1], now);
        if node.Failure? then Failure(node.error) else Success(before.value + [node.value])
  }

  /** What one hint contributes: its endpoints and the edge between them. */
  function HintEdge(cs: Casing, r: Source, h: GraphHint, now: Stamp): Result<(GraphNode, GraphNode, GraphEdge), string> {
    if !ValidHint(cs, h) then Failure("unsupported hint")
    else
      var from := NewNode(cs, r.tenant, r.user, h.fromKind, h.fromName, h.confidence, now);
      if from.Failure? then Failure(from.error)
      else
        var to := NewNode(cs, r.tenant, r.user, h.toKind, h.toName, h.confidence, now);
        if to.Failure? then Failure(to.error)
        else
          var edge := NewEdge(cs, r.tenant, r.user, from.value.key, h.relation, to.value.key, h.confidence, r.id, now);
          if edge.Failure? then Failure(edge.error) else Success((from.value, to.value, edge.value))
  }

  function HintGraph(cs: Casing, r: Source, hints: seq<GraphHint>, nodes: seq<GraphNode>, n: nat, now: Stamp): Result<Collected, string>
    requires n <= |hints|
  {
    if n == 0 then Success((nodes, []))
    else
      var before := HintGraph(cs, r, hints, nodes, n - 1, now);
      if before.Failure? then before
      else
        var parts := HintEdge(cs, r, hints[n - 1], now);
        if parts.Failure? then Failure(parts.error)
        else Success((before.value.0 + [parts.value.0, parts.value.1], before.value.1 + [parts.value.2]))
  }

  function AllHints(cs: Casing, r: Source, hints: seq<GraphHint>): seq<GraphHint> {
    hints + if hints == [] then HeuristicHints(cs, r) else []
  }

  /** Everything a record and its hints say, before deduplication. */
  function Collect(cs: Casing, r: Source, hints: seq<GraphHint>, now: Stamp): Result<Collected, string> {
    var nodes := EntityNodes(cs, r, |r.entities|, now);
    if nodes.Failure? then Failure(nodes.error)
    else HintGraph(cs, r, AllHints(cs, r, hints), nodes.value, |AllHints(cs, r, hints)|, now)
  }

  function RankNode(n: GraphNode): Ranked<GraphNode> {
    Ranked((n.tenant, n.user, n.key), n.confidence, n)
  }

  function RankEdge(e: GraphEdge): Ranked<GraphEdge> {
    Ranked((e.fromKey, e.relation, e.toKey), e.confidence, e)
  }

  function RankNodes(nodes: seq<GraphNode>): (ranked: seq<Ranked<GraphNode>>)
    ensures |ranked| == |nodes| && forall i :: 0 <= i < |nodes| ==> ranked[i] == RankNode(nodes[i])
  {
    seq(|nodes|, i requires 0 <= i < |nodes| => RankNode(nodes[i]))
  }

  function RankEdges(edges: seq<GraphEdge>): (ranked: seq<Ranked<GraphEdge>>)
    ensures |ranked| == |edges| && forall i :: 0 <= i < |edges| ==> ranked[i] == RankEdge(edges[i])
  {
    seq(|edges|, i requires 0 <= i < |edges| => RankEdge(edges[i]))
  }

  function Items<T>(s: seq<Ranked<T>>): (items: seq<T>)
    ensures |items| == |s| && forall i :: 0 <= i < |s| ==> items[i] == s[i].item
  {
    seq(|s|, i requires 0 <= i < |s| => s[i].item)
  }

  function DedupNodes(nodes: seq<GraphNode>): seq<GraphNode> {
    Items(SortDedup.SortDedup(RankNodes(nodes)))
  }

  function DedupEdges(edges: seq<GraphEdge>): seq<GraphEdge> {
    Items(SortDedup.SortDedup(RankEdges(edges)))
  }

  function Assemble(collected: Collected): Output {
    var nodes, edges := DedupNodes(collected.0), DedupEdges(collected.1);
    var contradictions := Contradictions.Messages(Contradictions.Conflicts(edges));
    var count := |nodes| + |edges|;
    Output(nodes, edges, contradictions,
           if contradictions == [] then "none" else if |contradictions| == 1 then "single_conflict" else "multi_conflict",
           if count <= U32_MAX then count else U32_MAX)
  }

  function Graphified(cs: Casing, r: Source, hints: seq<GraphHint>, now: Stamp): Result<Output, string> {
    var collected := Collect(cs, r, hints, now);
    if collected.Failure? then Failure(collected.error) else Success(Assemble(collected.value))
  }

  method CollectEntities(cs: Casing, r: Source, now: Stamp) returns (collected: Result<seq<GraphNode>, string>)
    ensures collected == EntityNodes(cs, r, |r.entities|, now)
  {
    hide EntityNode;
    var nodes: seq<GraphNode> := [];
    for i := 0 to |r.entities|
      invariant EntityNodes(cs, r, i, now) == Success(nodes)
    {
      if Trim(r.entities[i]) != [] {
        var node := EntityNode(cs, r, r.entities[i], now);
        if node.Failure? {
          EntityFailureStays(cs, r, i + 1, now);
          return Failure(node.error);
        }
        nodes := nodes + [node.value];
      }
    }
    return Success(nodes);
  }

  method CollectHints(cs: Casing, r: Source, hints: seq<GraphHint>, entities: seq<GraphNode>, now: Stamp) returns (collected: Result<Collected, string>)
    ensures collected == HintGraph(cs, r, hints, entities, |hints|, now)
  {
    hide HintEdge;
    var nodes, relationships: seq<GraphEdge> := entities, [];
    for i := 0 to |hints|
      invariant HintGraph(cs, r, hints, entities, i, now) == Success((nodes, relationships))
    {
      var parts := HintEdge(cs, r, hints[i], now);
      if parts.Failure? {
        HintFailureStays(cs, r, hints, entities, i + 1, now);
        return Failure(parts.error);
      }
      relationships := relationships + [parts.value.2];
      nodes := nodes + [parts.value.0, parts.value.1];
    }
    return Success((nodes, relationships));
  }

  method GraphifyRecord(cs: Casing, r: Source, hints: seq<GraphHint>, now: Stamp) returns (output: Result<Output, string>)
    ensures output == Graphified(cs, r, hints, now)
    ensures output.Success? ==>
              var o := output.value;
              && o.contradictionClass == ["none", "single_conflict", "multi_conflict"][if |o.contradictions| < 2 then |o.contradictions| else 2]
              && (o.contradictions != [] <==> exists p :: Contradictions.Contradicted(o.relationships, p))
              && o.evidenceCount == if |o.nodes| + |o.relationships| < 4_294_967_296 then |o.nodes| + |o.relationships| else 4_294_967_295
    ensures output.Success? ==> forall i, j :: 0 <= i < j < |output.value.nodes| ==> NodeOrder(output.value.nodes[i], output.value.nodes[j])
    ensures output.Success? ==> forall i, j :: 0 <= i < j < |output.value.relationships| ==> EdgeOrder(output.value.relationships[i], output.value.relationships[j])
  {
    hide EntityNodes, HintGraph, AllHints, DedupNodes, DedupEdges, Contradictions.Messages, Contradictions.Conflicts, Contradictions.Contradicted, NodeOrder, EdgeOrder;
    var entities := CollectEntities(cs, r, now);
    if entities.Failure? {
      return Failure(entities.error);
    }
    var collected := CollectHints(cs, r, AllHints(cs, r, hints), entities.value, now);
    if collected.Failure? {
      return Failure(collected.error);
    }
    var relationships := DedupEdges(collected.value.1);
    var contradictions := Contradictions.FindContradictions(relationships);
    var nodes := DedupNodes(collected.value.0);
    NodesInOrder(collected.value.0);
    EdgesInOrder(collected.value.1);
    var count := |nodes| + |relationships|;
    return Success(Output(nodes, relationships, contradictions,
      if contradictions == [] then "none" else if |contradictions| == 1 then "single_conflict" else "multi_conflict",
      if count <= U32_MAX then count else U32_MAX));
  }

  lemma {:induction false} EntityFailureStays(cs: Casing, r: Source, n: nat, now: Stamp)
    requires n <= |r.entities| && EntityNodes(cs, r, n, now).Failure?
    ensures EntityNodes(cs, r, |r.entities|, now) == EntityNodes(cs, r, n, now)
    decreases |r.entities| - n
  {
    hide EntityNode, Trim;
    if n < |r.entities| {
      EntityFailureStays(cs, r, n + 1, now);
    }
  }

  lemma {:induction false} HintFailureStays(cs: Casing, r: Source, hints: seq<GraphHint>, nodes: seq<GraphNode>, n: nat, now: Stamp)
    requires n <= |hints| && HintGraph(cs, r, hints, nodes, n, now).Failure?
    ensures HintGraph(cs, r, hints, nodes, |hints|, now) == HintGraph(cs, r, hints, nodes, n, now)
    decreases |hints| - n
  {
    hide HintEdge, NewNode, NewEdge;
    if n < |hints| {
      HintFailureStays(cs, r, hints, nodes, n + 1, now);
    }
  }

  // ---- Deduplication ----

  predicate SameKey(a: GraphNode, b: GraphNode) {
    a.tenant == b.tenant && a.user == b.user && a.key == b.key
  }

  predicate SameTriple(a: GraphEdge, b: GraphEdge) {
    a.fromKey == b.fromKey && a.relation == b.relation && a.toKey == b.toKey
  }

  /** Some kept node has this node's key, and no less confidence. */
  predicate NodeKept(kept: seq<GraphNode>, n: GraphNode) {
    exists j :: 0 <= j < |kept| && SameKey(kept[j], n) && kept[j].confidence >= n.confidence
  }

  predicate EdgeKept(kept: seq<GraphEdge>, e: GraphEdge) {
    exists j :: 0 <= j < |kept| && SameTriple(kept[j], e) && kept[j].confidence >= e.confidence
  }

  lemma KeptNodeIsRanked(nodes: seq<GraphNode>, i: nat)
    requires i < |DedupNodes(nodes)|
    ensures |SortDedup.SortDedup(RankNodes(nodes))| == |DedupNodes(nodes)|
    ensures SortDedup.SortDedup(RankNodes(nodes))[i] == RankNode(DedupNodes(nodes)[i]) && DedupNodes(nodes)[i] in nodes
  {
    hide SortDedup.SortDedup, RankNodes, Items;
    var ranked, kept := RankNodes(nodes), SortDedup.SortDedup(RankNodes(nodes));
    OneBestPerKey(ranked);
    assert kept[i] in ranked;
    var j :| 0 <= j < |ranked| && ranked[j] == kept[i];
    assert nodes[j] == kept[i].item;
  }

  lemma KeptNodesDiffer(nodes: seq<GraphNode>, i: nat, j: nat)
    requires i < j < |DedupNodes(nodes)|
    ensures !SameKey(DedupNodes(nodes)[i], DedupNodes(nodes)[j])
  {
    hide SortDedup.SortDedup, RankNodes, Items, DedupNodes, TakenFrom, AllCovered;
    OneBestPerKey(RankNodes(nodes));
    KeptNodeIsRanked(nodes, i);
    KeptNodeIsRanked(nodes, j);
  }

  lemma NodeIsKept(nodes: seq<GraphNode>, i: nat)
    requires i < |nodes|
    ensures NodeKept(DedupNodes(nodes), nodes[i])
  {
    hide SortDedup.SortDedup, RankNodes, Items, TakenFrom, OncePerKey;
    var ranked, kept := RankNodes(nodes), SortDedup.SortDedup(RankNodes(nodes));
    OneBestPerKey(ranked);
    assert Covers(kept, ranked[i]);
    var j :| 0 <= j < |kept| && kept[j].key == ranked[i].key && kept[j].score >= ranked[i].score;
    KeptNodeIsRanked(nodes, j);
    assert SameKey(DedupNodes(nodes)[j], nodes[i]);
  }

  /** One node per key, taken from the input, with the greatest confidence of its group. */
  lemma OneNodePerKey(nodes: seq<GraphNode>)
    ensures forall i, j :: 0 <= i < j < |DedupNodes(nodes)| ==> !SameKey(DedupNodes(nodes)[i], DedupNodes(nodes)[j])
    ensures forall i :: 0 <= i < |DedupNodes(nodes)| ==> DedupNodes(nodes)[i] in nodes
    ensures forall i :: 0 <= i < |nodes| ==> NodeKept(DedupNodes(nodes), nodes[i])
  {
    hide DedupNodes, NodeKept, SameKey;
    forall i, j | 0 <= i < j < |DedupNodes(nodes)|
      ensures !SameKey(DedupNodes(nodes)[i], DedupNodes(nodes)[j])
    {
      KeptNodesDiffer(nodes, i, j);
    }
    forall i | 0 <= i < |DedupNodes(nodes)|
      ensures DedupNodes(nodes)[i] in nodes
    {
      KeptNodeIsRanked(nodes, i);
    }
    forall i | 0 <= i < |nodes|
      ensures NodeKept(DedupNodes(nodes), nodes[i])
    {
      NodeIsKept(nodes, i);
    }
  }

  lemma KeptEdgeIsRanked(edges: seq<GraphEdge>, i: nat)
    requires i < |DedupEdges(edges)|
    ensures |SortDedup.SortDedup(RankEdges(edges))| == |DedupEdges(edges)|
    ensures SortDedup.SortDedup(RankEdges(edges))[i] == RankEdge(DedupEdges(edges)[i]) && DedupEdges(edges)[i] in edges
  {
    hide SortDedup.SortDedup, RankEdges, Items;
    var ranked, kept := RankEdges(edges), SortDedup.SortDedup(RankEdges(edges));
    OneBestPerKey(ranked);
    assert kept[i] in ranked;
    var j :| 0 <= j < |ranked| && ranked[j] == kept[i];
    assert edges[j] == kept[i].item;
  }

  lemma KeptEdgesDiffer(edges: seq<GraphEdge>, i: nat, j: nat)
    requires i < j < |DedupEdges(edges)|
    ensures !SameTriple(DedupEdges(edges)[i], DedupEdges(edges)[j])
  {
    hide SortDedup.SortDedup, RankEdges, Items, DedupEdges, TakenFrom, AllCovered;
    OneBestPerKey(RankEdges(edges));
    KeptEdgeIsRanked(edges, i);
    KeptEdgeIsRanked(edges, j);
  }

  lemma EdgeIsKept(edges: seq<GraphEdge>, i: nat)
    requires i < |edges|
    ensures EdgeKept(DedupEdges(edges), edges[i])
  {
    hide SortDedup.SortDedup, RankEdges, Items, TakenFrom, OncePerKey;
    var ranked, kept := RankEdges(edges), SortDedup.SortDedup(RankEdges(edges));
    OneBestPerKey(ranked);
    assert Covers(kept, ranked[i]);
    var j :| 0 <= j < |kept| && kept[j].key == ranked[i].key && kept[j].score >= ranked[i].score;
    KeptEdgeIsRanked(edges, j);
    assert SameTriple(DedupEdges(edges)[j], edges[i]);
  }

  /** One edge per triple, taken from the input, with the greatest confidence of its group. */
  lemma OneEdgePerTriple(edges: seq<GraphEdge>)
    ensures forall i, j :: 0 <= i < j < |DedupEdges(edges)| ==> !SameTriple(DedupEdges(edges)[i], DedupEdges(edges)[j])
    ensures forall i :: 0 <= i < |DedupEdges(edges)| ==> DedupEdges(edges)[i] in edges
    ensures forall i :: 0 <= i < |edges| ==> EdgeKept(DedupEdges(edges), edges[i])
  {
    hide DedupEdges, EdgeKept, SameTriple;
    forall i, j | 0 <= i < j < |DedupEdges(edges)|
      ensures !SameTriple(DedupEdges(edges)[i], DedupEdges(edges)[j])
    {
      KeptEdgesDiffer(edges, i, j);
    }
    forall i | 0 <= i < |DedupEdges(edges)|
      ensures DedupEdges(edges)[i] in edges
    {
      KeptEdgeIsRanked(edges, i);
    }
    forall i | 0 <= i < |edges|
      ensures EdgeKept(DedupEdges(edges), edges[i])
    {
      EdgeIsKept(edges, i);
    }
  }

  /** By tenant, then user, then key. */
  predicate NodeOrder(a: GraphNode, b: GraphNode) {
    if a.tenant != b.tenant then StringLeq(a.tenant, b.tenant)
    else if a.user != b.user then StringLeq(a.user, b.user)
    else a.key != b.key && StringLeq(a.key, b.key)
  }

  /** By start, then relation, then end. */
  predicate EdgeOrder(a: GraphEdge, b: GraphEdge) {
    if a.fromKey != b.fromKey then StringLeq(a.fromKey, b.fromKey)
    else if a.relation != b.relation then StringLeq(a.relation, b.relation)
    else a.toKey != b.toKey && StringLeq(a.toKey, b.toKey)
  }

  /** The first of the most confident nodes with its key. */
  predicate Leads(nodes: seq<GraphNode>, i: nat) {
    && i < |nodes|
    && (forall j :: 0 <= j < |nodes| && SameKey(nodes[j], nodes[i]) ==> nodes[j].confidence <= nodes[i].confidence)
    && (forall j :: 0 <= j < i && SameKey(nodes[j], nodes[i]) ==> nodes[j].confidence < nodes[i].confidence)
  }

  /** The first of the most confident edges with its triple. */
  predicate LeadsTriple(edges: seq<GraphEdge>, i: nat) {
    && i < |edges|
    && (forall j :: 0 <= j < |edges| && SameTriple(edges[j], edges[i]) ==> edges[j].confidence <= edges[i].confidence)
    && (forall j :: 0 <= j < i && SameTriple(edges[j], edges[i]) ==> edges[j].confidence < edges[i].confidence)
  }

  predicate NodeLeader(nodes: seq<GraphNode>, x: GraphNode) {
    exists i :: 0 <= i < |nodes| && Leads(nodes, i) && nodes[i] == x
  }

  /** The nodes come out in order, and of nodes with one key the first of the most confident. */
  lemma NodesInOrder(nodes: seq<GraphNode>)
    ensures forall i, j :: 0 <= i < j < |DedupNodes(nodes)| ==> NodeOrder(DedupNodes(nodes)[i], DedupNodes(nodes)[j])
    ensures forall k :: 0 <= k < |DedupNodes(nodes)| ==> NodeLeader(nodes, DedupNodes(nodes)[k])
  {
    hide SortDedup.SortDedup, StringLeq;
    var ranked, kept := RankNodes(nodes), SortDedup.SortDedup(RankNodes(nodes));
    SortDedupExact(ranked);
    forall k | 0 <= k < |DedupNodes(nodes)|
      ensures kept[k] == RankNode(DedupNodes(nodes)[k])
    {
      KeptNodeIsRanked(nodes, k);
    }
    forall k | 0 <= k < |DedupNodes(nodes)|
      ensures NodeLeader(nodes, DedupNodes(nodes)[k])
    {
      KeptNodeIsRanked(nodes, k);
      var i: nat :| FirstBestAt(ranked, kept[k].key, i) && ranked[i] == kept[k];
      NodeLeads(nodes, i);
    }
    forall i, j | 0 <= i < j < |DedupNodes(nodes)|
      ensures NodeOrder(DedupNodes(nodes)[i], DedupNodes(nodes)[j])
    {
      assert kept[i] == RankNode(DedupNodes(nodes)[i]) && kept[j] == RankNode(DedupNodes(nodes)[j]);
      assert kept[i].key != kept[j].key && KeyLeq(kept[i].key, kept[j].key);
    }
  }

  lemma NodeLeads(nodes: seq<GraphNode>, i: nat)
    requires i < |nodes| && FirstBestAt(RankNodes(nodes), RankNodes(nodes)[i].key, i)
    ensures Leads(nodes, i)
  {
    var ranked := RankNodes(nodes);
    assert forall j :: 0 <= j < |nodes| && SameKey(nodes[j], nodes[i]) ==> ranked[j].key == ranked[i].key;
  }

  predicate EdgeLeader(edges: seq<GraphEdge>, x: GraphEdge) {
    exists i :: 0 <= i < |edges| && LeadsTriple(edges, i) && edges[i] == x
  }

  /** The edges come out in order, and of edges with one triple the first of the most confident. */
  lemma EdgesInOrder(edges: seq<GraphEdge>)
    ensures forall i, j :: 0 <= i < j < |DedupEdges(edges)| ==> EdgeOrder(DedupEdges(edges)[i], DedupEdges(edges)[j])
    ensures forall k :: 0 <= k < |DedupEdges(edges)| ==> EdgeLeader(edges, DedupEdges(edges)[k])
  {
    hide SortDedup.SortDedup, StringLeq;
    var ranked, kept := RankEdges(edges), SortDedup.SortDedup(RankEdges(edges));
    SortDedupExact(ranked);
    forall k | 0 <= k < |DedupEdges(edges)|
      ensures kept[k] == RankEdge(DedupEdges(edges)[k])
    {
      KeptEdgeIsRanked(edges, k);
    }
    forall k | 0 <= k < |DedupEdges(edges)|
      ensures EdgeLeader(edges, DedupEdges(edges)[k])
    {
      KeptEdgeIsRanked(edges, k);
      var i: nat :| FirstBestAt(ranked, kept[k].key, i) && ranked[i] == kept[k];
      EdgeLeads(edges, i);
    }
    forall i, j | 0 <= i < j < |DedupEdges(edges)|
      ensures EdgeOrder(DedupEdges(edges)[i], DedupEdges(edges)[j])
    {
      assert kept[i] == RankEdge(DedupEdges(edges)[i]) && kept[j] == RankEdge(DedupEdges(edges)[j]);
      assert kept[i].key != kept[j].key && KeyLeq(kept[i].key, kept[j].key);
    }
  }

  lemma EdgeLeads(edges: seq<GraphEdge>, i: nat)
    requires i < |edges| && FirstBestAt(RankEdges(edges), RankEdges(edges)[i].key, i)
    ensures LeadsTriple(edges, i)
  {
    var ranked := RankEdges(edges);
    assert forall j :: 0 <= j < |edges| && SameTriple(edges[j], edges[i]) ==> ranked[j].key == ranked[i].key;
  }

  // ---- Producer meets consumer ----

  predicate NodeFits(cs: Casing, r: Source, n: GraphNode) {
    ValidNode(cs, n) && n.tenant == r.tenant && n.user == r.user
  }

  predicate NodesFit(cs: Casing, r: Source, nodes: seq<GraphNode>) {
    forall i :: 0 <= i < |nodes| ==> NodeFits(cs, r, nodes[i])
  }

  predicate EdgeSound(r: Source, e: GraphEdge) {
    ValidEdge(e) && e.tenant == r.tenant && e.user == r.user && e.sources == [r.id]
  }

  predicate EdgeFits(r: Source, nodes: seq<GraphNode>, e: GraphEdge) {
    EdgeSound(r, e) && HasKey(nodes, e.fromKey) && HasKey(nodes, e.toKey)
  }

  predicate EdgesFit(r: Source, nodes: seq<GraphNode>, edges: seq<GraphEdge>) {
    forall i :: 0 <= i < |edges| ==> EdgeFits(r, nodes, edges[i])
  }

  lemma NewNodeFits(cs: Casing, r: Source, kind: string, name: string, confidence: real, now: Stamp)
    requires NewNode(cs, r.tenant, r.user, kind, name, confidence, now).Success?
    ensures NodeFits(cs, r, NewNode(cs, r.tenant, r.user, kind, name, confidence, now).value)
  {
    hide ValidNode;
    NewNodeValid(cs, r.tenant, r.user, kind, name, confidence, now);
  }

  lemma {:induction false} EntityNodesFit(cs: Casing, r: Source, n: nat, now: Stamp)
    requires n <= |r.entities| && EntityNodes(cs, r, n, now).Success?
    ensures NodesFit(cs, r, EntityNodes(cs, r, n, now).value)
  {
    hide NodeFits, NewNode, InferLabel;
    if n > 0 {
      EntityNodesFit(cs, r, n - 1, now);
      if Trim(r.entities[n - 1]) != [] {
        NewNodeFits(cs, r, InferLabel(cs, r.entities[n - 1]), r.entities[n - 1], 0.8, now);
      }
    }
  }

  lemma NewEdgeSound(cs: Casing, r: Source, fromKey: string, relation: string, toKey: string, confidence: real, now: Stamp)
    requires NewEdge(cs, r.tenant, r.user, fromKey, relation, toKey, confidence, r.id, now).Success?
    ensures var e := NewEdge(cs, r.tenant, r.user, fromKey, relation, toKey, confidence, r.id, now).value;
            EdgeSound(r, e) && e.fromKey == fromKey && e.toKey == toKey
  {
    hide ValidEdge;
    NewEdgeValid(cs, r.tenant, r.user, fromKey, relation, toKey, confidence, r.id, now);
  }

  lemma HintEdgeFits(cs: Casing, r: Source, h: GraphHint, now: Stamp)
    requires HintEdge(cs, r, h, now).Success?
    ensures var parts := HintEdge(cs, r, h, now).value;
            NodesFit(cs, r, [parts.0, parts.1]) && EdgeFits(r, [parts.0, parts.1], parts.2)
  {
    hide NodeFits, EdgeSound, NewNode, NewEdge, ValidHint;
    var parts := HintEdge(cs, r, h, now).value;
    NewNodeFits(cs, r, h.fromKind, h.fromName, h.confidence, now);
    NewNodeFits(cs, r, h.toKind, h.toName, h.confidence, now);
    NewEdgeSound(cs, r, parts.0.key, h.relation, parts.1.key, h.confidence, now);
    assert [parts.0, parts.1][0].key == parts.2.fromKey && [parts.0, parts.1][1].key == parts.2.toKey;
  }

  lemma KeysStay(some: seq<GraphNode>, all: seq<GraphNode>, key: string)
    requires forall n :: n in some ==> n in all
    ensures HasKey(some, key) ==> HasKey(all, key)
  {
    if HasKey(some, key) {
      var i :| 0 <= i < |some| && some[i].key == key;
      assert some[i] in all;
      var j :| 0 <= j < |all| && all[j] == some[i];
    }
  }

  lemma {:induction false} HintGraphFits(cs: Casing, r: Source, hints: seq<GraphHint>, nodes: seq<GraphNode>, n: nat, now: Stamp)
    requires n <= |hints| && NodesFit(cs, r, nodes) && HintGraph(cs, r, hints, nodes, n, now).Success?
    ensures var collected := HintGraph(cs, r, hints, nodes, n, now).value;
            NodesFit(cs, r, collected.0) && EdgesFit(r, collected.0, collected.1)
  {
    hide NodeFits, EdgeSound, HintEdge;
    if n > 0 {
      HintGraphFits(cs, r, hints, nodes, n - 1, now);
      HintEdgeFits(cs, r, hints[n - 1], now);
      var before := HintGraph(cs, r, hints, nodes, n - 1, now).value;
      var parts := HintEdge(cs, r, hints[n - 1], now).value;
      var grown := before.0 + [parts.0, parts.1];
      forall i | 0 <= i < |before.1|
        ensures EdgeFits(r, grown, before.1[i])
      {
        KeysStay(before.0, grown, before.1[i].fromKey);
        KeysStay(before.0, grown, before.1[i].toKey);
      }
      KeysStay([parts.0, parts.1], grown, parts.2.fromKey);
      KeysStay([parts.0, parts.1], grown, parts.2.toKey);
    }
  }

  lemma EndpointSurvives(nodes: seq<GraphNode>, key: string)
    requires HasKey(nodes, key)
    ensures HasKey(DedupNodes(nodes), key)
  {
    hide DedupNodes;
    OneNodePerKey(nodes);
    var i :| 0 <= i < |nodes| && nodes[i].key == key;
    assert NodeKept(DedupNodes(nodes), nodes[i]);
  }

  lemma DedupFits(cs: Casing, r: Source, nodes: seq<GraphNode>, edges: seq<GraphEdge>)
    requires NodesFit(cs, r, nodes) && EdgesFit(r, nodes, edges)
    ensures NodesFit(cs, r, DedupNodes(nodes)) && EdgesFit(r, DedupNodes(nodes), DedupEdges(edges))
  {
    hide NodeFits, EdgeSound, DedupNodes, DedupEdges;
    OneNodePerKey(nodes);
    OneEdgePerTriple(edges);
    var kept, relationships := DedupNodes(nodes), DedupEdges(edges);
    forall i | 0 <= i < |relationships|
      ensures EdgeFits(r, kept, relationships[i])
    {
      assert relationships[i] in edges;
      var j :| 0 <= j < |edges| && edges[j] == relationships[i];
      EndpointSurvives(nodes, edges[j].fromKey);
      EndpointSurvives(nodes, edges[j].toKey);
    }
    forall i | 0 <= i < |kept|
      ensures NodeFits(cs, r, kept[i])
    {
      assert kept[i] in nodes;
      var j :| 0 <= j < |nodes| && nodes[j] == kept[i];
    }
  }

  /**
   Whatever graphify_record produces, the store's validator accepts exactly when the record's own
   identity is valid: every node is canonical, and every edge survives with both endpoints.
   */
  lemma ProducerMeetsConsumer(cs: Casing, r: Source, hints: seq<GraphHint>, now: Stamp)
    requires Graphified(cs, r, hints, now).Success?
    ensures var output := Graphified(cs, r, hints, now).value;
            ValidSourceGraph(cs, r.tenant, r.user, r.id, output.nodes, output.relationships)
            <==> (ValidComponent(r.tenant) && ValidComponent(r.user) && ValidComponent(r.id))
  {
    hide ValidNode, ValidEdge, ValidComponent, EntityNodes, HintGraph, AllHints, DedupNodes, DedupEdges, HasKey;
    var entities := EntityNodes(cs, r, |r.entities|, now);
    var collected := Collect(cs, r, hints, now).value;
    EntityNodesFit(cs, r, |r.entities|, now);
    HintGraphFits(cs, r, AllHints(cs, r, hints), entities.value, |AllHints(cs, r, hints)|, now);
    DedupFits(cs, r, collected.0, collected.1);
    forall i | 0 <= i < |DedupEdges(collected.1)|
      ensures EdgeFits(r, DedupNodes(collected.0), DedupEdges(collected.1)[i])
    {
    }
    forall i | 0 <= i < |DedupNodes(collected.0)|
      ensures NodeFits(cs, r, DedupNodes(collected.0)[i])
    {
    }
  }
}
