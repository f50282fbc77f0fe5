/**
 What a produced graph says about its record: an edge for every hint, in the hint's direction and under its
 relation, a node for every entity and every endpoint, and nothing else.
 */
module GraphifyEvidence {
  import opened Wrappers
  import opened GraphModel
  import opened Graphify

  /** The key of a label and a name. */
  function KeyText(cs: Casing, kind: string, name: string): string {
    Trim(kind) + ":" + Canonical(name, cs)
  }

  /** The hints that count: those given, or one from each entity to the next. */
  predicate Used(cs: Casing, r: Source, hints: seq<GraphHint>, h: GraphHint) {
    if hints != [] then h in hints
    else exists i :: 0 <= i < |r.entities| - 1 && Follows(cs, r, i, h)
  }

  predicate Follows(cs: Casing, r: Source, i: nat, h: GraphHint)
    requires i < |r.entities| - 1
  {
    && h.fromName == r.entities[i] && h.fromKind == InferLabel(cs, r.entities[i])
    && h.toName == r.entities[i + 1] && h.toKind == InferLabel(cs, r.entities[i + 1])
    && h.relation == HeuristicRelation(cs, r.content) && h.confidence == 0.65
  }

  /** The edge from the hint's first endpoint to its second, under its relation. */
  predicate EdgeOf(cs: Casing, r: Source, h: GraphHint, e: GraphEdge) {
    && e.fromKey == KeyText(cs, h.fromKind, h.fromName) && e.toKey == KeyText(cs, h.toKind, h.toName)
    && e.relation == MapChars(Trim(h.relation), cs.upper)
    && e.tenant == r.tenant && e.user == r.user && e.sources == [r.id]
  }

  /** The node of a label and a name. */
  predicate NodeOf(cs: Casing, r: Source, kind: string, name: string, n: GraphNode) {
    && n.kind == Trim(kind) && n.name == Trim(name) && n.canonicalName == Canonical(name, cs) && n.key == KeyText(cs, kind, name)
    && n.tenant == r.tenant && n.user == r.user
  }

  /** The edge is that of a hint that counts, with exactly its confidence. */
  ghost predicate Implied(cs: Casing, r: Source, hints: seq<GraphHint>, e: GraphEdge) {
    exists h :: Used(cs, r, hints, h) && EdgeOf(cs, r, h, e) && e.confidence == h.confidence
  }

  /** The node is that of a non-blank entity, or of an endpoint of a hint, with exactly its confidence. */
  ghost predicate Warranted(cs: Casing, r: Source, hints: seq<GraphHint>, n: GraphNode) {
    || (exists i :: 0 <= i < |r.entities| && Trim(r.entities[i]) != [] && NodeOf(cs, r, InferLabel(cs, r.entities[i]), r.entities[i], n) && n.confidence == 0.8)
    || (exists h :: Used(cs, r, hints, h) && Endpoint(cs, r, h, n))
  }

  predicate Endpoint(cs: Casing, r: Source, h: GraphHint, n: GraphNode) {
    (NodeOf(cs, r, h.fromKind, h.fromName, n) || NodeOf(cs, r, h.toKind, h.toName, n)) && n.confidence == h.confidence
  }

  predicate HasNode(r: Source, nodes: seq<GraphNode>, key: string, confidence: real) {
    exists k :: 0 <= k < |nodes| && nodes[k].tenant == r.tenant && nodes[k].user == r.user && nodes[k].key == key && nodes[k].confidence >= confidence
  }

  predicate HasEdge(edges: seq<GraphEdge>, fromKey: string, relation: string, toKey: string, confidence: real) {
    exists k :: 0 <= k < |edges| && edges[k].fromKey == fromKey && edges[k].relation == relation && edges[k].toKey == toKey && edges[k].confidence >= confidence
  }

  // ---- Before deduplication ----

  lemma FollowsAt(cs: Casing, r: Source, i: nat, h: GraphHint)
    requires i < |r.entities| - 1
    ensures i < |HeuristicHints(cs, r)| && (Follows(cs, r, i, h) <==> HeuristicHints(cs, r)[i] == h)
  {
    hide InferLabel, HeuristicRelation;
  }

  lemma InferredSize(cs: Casing, r: Source)
    ensures |HeuristicHints(cs, r)| == if |r.entities| < 2 then 0 else |r.entities| - 1
  {
  }

  lemma InferredAt(cs: Casing, r: Source, h: GraphHint)
    ensures (exists i :: 0 <= i < |r.entities| - 1 && Follows(cs, r, i, h)) <==> h in HeuristicHints(cs, r)
  {
    hide HeuristicHints, Follows;
    InferredSize(cs, r);
    if i :| 0 <= i < |r.entities| - 1 && Follows(cs, r, i, h) {
      FollowsAt(cs, r, i, h);
    }
    if h in HeuristicHints(cs, r) {
      var i :| 0 <= i < |HeuristicHints(cs, r)| && HeuristicHints(cs, r)[i] == h;
      FollowsAt(cs, r, i, h);
    }
  }

  lemma UsedAt(cs: Casing, r: Source, hints: seq<GraphHint>, h: GraphHint)
    ensures Used(cs, r, hints, h) <==> h in AllHints(cs, r, hints)
  {
    hide HeuristicHints, Follows;
    if hints == [] {
      InferredAt(cs, r, h);
      assert AllHints(cs, r, hints) == HeuristicHints(cs, r);
    } else {
      assert AllHints(cs, r, hints) == hints;
    }
  }

  lemma EntityMeans(cs: Casing, r: Source, entity: string, now: Stamp)
    requires EntityNode(cs, r, entity, now).Success?
    ensures var n := EntityNode(cs, r, entity, now).value; NodeOf(cs, r, InferLabel(cs, entity), entity, n) && n.confidence == 0.8
  {
    hide InferLabel;
  }

  lemma HintMeans(cs: Casing, r: Source, h: GraphHint, now: Stamp)
    requires HintEdge(cs, r, h, now).Success?
    ensures var (from, to, edge) := HintEdge(cs, r, h, now).value;
            && NodeOf(cs, r, h.fromKind, h.fromName, from) && from.confidence == h.confidence
            && NodeOf(cs, r, h.toKind, h.toName, to) && to.confidence == h.confidence
            && EdgeOf(cs, r, h, edge) && edge.confidence == h.confidence
  {
    hide Canonical, Trim, MapChars;
  }

  lemma {:induction false} EntityNodesAt(cs: Casing, r: Source, n: nat, now: Stamp)
    requires n <= |r.entities| && EntityNodes(cs, r, n, now).Success?
    ensures var nodes := EntityNodes(cs, r, n, now).value;
            && (forall node :: node in nodes ==>
                  exists i :: 0 <= i < n && Trim(r.entities[i]) != [] && EntityNode(cs, r, r.entities[i], now) == Success(node))
            && (forall i :: 0 <= i < n && Trim(r.entities[i]) != [] ==>
                  EntityNode(cs, r, r.entities[i], now).Success? && EntityNode(cs, r, r.entities[i], now).value in nodes)
  {
    hide EntityNode, Trim;
    if n > 0 {
      EntityNodesAt(cs, r, n - 1, now);
    }
  }

  lemma {:induction false} HintGraphAt(cs: Casing, r: Source, hints: seq<GraphHint>, nodes: seq<GraphNode>, n: nat, now: Stamp)
    requires n <= |hints| && HintGraph(cs, r, hints, nodes, n, now).Success?
    ensures var (all, edges) := HintGraph(cs, r, hints, nodes, n, now).value;
            && |edges| == n
            && (forall i :: 0 <= i < n ==> HintEdge(cs, r, hints[i], now).Success? && edges[i] == HintEdge(cs, r, hints[i], now).value.2)
            && (forall i :: 0 <= i < n ==> HintEdge(cs, r, hints[i], now).value.0 in all && HintEdge(cs, r, hints[i], now).value.1 in all)
            && (forall node :: node in nodes ==> node in all)
            && (forall node :: node in all && node !in nodes ==>
                  exists i :: 0 <= i < n && (node == HintEdge(cs, r, hints[i], now).value.0 || node == HintEdge(cs, r, hints[i], now).value.1))
  {
    hide HintEdge;
    if n > 0 {
      HintGraphAt(cs, r, hints, nodes, n - 1, now);
    }
  }

  // ---- The output ----

  lemma OutputOf(cs: Casing, r: Source, hints: seq<GraphHint>, now: Stamp)
    requires Graphified(cs, r, hints, now).Success?
    ensures EntityNodes(cs, r, |r.entities|, now).Success? && Collect(cs, r, hints, now).Success?
    ensures Collect(cs, r, hints, now) ==
            HintGraph(cs, r, AllHints(cs, r, hints), EntityNodes(cs, r, |r.entities|, now).value, |AllHints(cs, r, hints)|, now)
    ensures Graphified(cs, r, hints, now).value.relationships == DedupEdges(Collect(cs, r, hints, now).value.1)
    ensures Graphified(cs, r, hints, now).value.nodes == DedupNodes(Collect(cs, r, hints, now).value.0)
  {
    hide EntityNodes, HintGraph, AllHints, DedupEdges, DedupNodes, Contradictions.Messages, Contradictions.Conflicts;
  }

  lemma EdgeStays(edges: seq<GraphEdge>, i: nat)
    requires i < |edges|
    ensures HasEdge(DedupEdges(edges), edges[i].fromKey, edges[i].relation, edges[i].toKey, edges[i].confidence)
  {
    hide DedupEdges;
    OneEdgePerTriple(edges);
    assert EdgeKept(DedupEdges(edges), edges[i]);
  }

  lemma NodeStays(r: Source, nodes: seq<GraphNode>, n: GraphNode)
    requires n in nodes && n.tenant == r.tenant && n.user == r.user
    ensures HasNode(r, DedupNodes(nodes), n.key, n.confidence)
  {
    hide DedupNodes;
    OneNodePerKey(nodes);
    var i :| 0 <= i < |nodes| && nodes[i] == n;
    assert NodeKept(DedupNodes(nodes), nodes[i]);
  }

  /** Every hint that counts has its edge, from its first endpoint to its second, with no less confidence; and both endpoints have their nodes. */
  lemma HintsCovered(cs: Casing, r: Source, hints: seq<GraphHint>, now: Stamp, h: GraphHint)
    requires Graphified(cs, r, hints, now).Success? && Used(cs, r, hints, h)
    ensures var output := Graphified(cs, r, hints, now).value;
            && HasEdge(output.relationships, KeyText(cs, h.fromKind, h.fromName), MapChars(Trim(h.relation), cs.upper), KeyText(cs, h.toKind, h.toName), h.confidence)
            && HasNode(r, output.nodes, KeyText(cs, h.fromKind, h.fromName), h.confidence)
            && HasNode(r, output.nodes, KeyText(cs, h.toKind, h.toName), h.confidence)
  {
    var all := AllHints(cs, r, hints);
    UsedAt(cs, r, hints, h);
    OutputOf(cs, r, hints, now);
    hide Graphified, Collect, AllHints, EntityNodes, HintGraph, HintEdge, Used, KeyText, HasEdge, HasNode, DedupEdges, DedupNodes, Trim, MapChars;
    var collected := Collect(cs, r, hints, now).value;
    HintGraphAt(cs, r, all, EntityNodes(cs, r, |r.entities|, now).value, |all|, now);
    var i :| 0 <= i < |all| && all[i] == h;
    HintMeans(cs, r, h, now);
    EdgeStays(collected.1, i);
    NodeStays(r, collected.0, HintEdge(cs, r, h, now).value.0);
    NodeStays(r, collected.0, HintEdge(cs, r, h, now).value.1);
  }

  /** Every entity that is not blank has its node. */
  lemma EntitiesCovered(cs: Casing, r: Source, hints: seq<GraphHint>, now: Stamp, i: nat)
    requires Graphified(cs, r, hints, now).Success? && i < |r.entities| && Trim(r.entities[i]) != []
    ensures HasNode(r, Graphified(cs, r, hints, now).value.nodes, KeyText(cs, InferLabel(cs, r.entities[i]), r.entities[i]), 0.8)
  {
    var all := AllHints(cs, r, hints);
    OutputOf(cs, r, hints, now);
    hide Graphified, Collect, AllHints, EntityNodes, HintGraph, HintEdge, KeyText, HasNode, DedupNodes, Trim, InferLabel, EntityNode;
    EntityNodesAt(cs, r, |r.entities|, now);
    EntityMeans(cs, r, r.entities[i], now);
    HintGraphAt(cs, r, all, EntityNodes(cs, r, |r.entities|, now).value, |all|, now);
    NodeStays(r, Collect(cs, r, hints, now).value.0, EntityNode(cs, r, r.entities[i], now).value);
  }

  lemma EdgeWarranted(cs: Casing, r: Source, hints: seq<GraphHint>, now: Stamp, e: GraphEdge)
    requires Graphified(cs, r, hints, now).Success? && e in Collect(cs, r, hints, now).value.1
    ensures Implied(cs, r, hints, e)
  {
    var all := AllHints(cs, r, hints);
    OutputOf(cs, r, hints, now);
    hide Graphified, Collect, AllHints, EntityNodes, HintGraph, HintEdge, Used, EdgeOf, DedupEdges, DedupNodes;
    var edges := Collect(cs, r, hints, now).value.1;
    HintGraphAt(cs, r, all, EntityNodes(cs, r, |r.entities|, now).value, |all|, now);
    var i :| 0 <= i < |edges| && edges[i] == e;
    HintMeans(cs, r, all[i], now);
    UsedAt(cs, r, hints, all[i]);
  }

  /** Every edge comes from a hint that counts, with exactly its confidence, and no two have the same ends and relation. */
  lemma EdgesWarranted(cs: Casing, r: Source, hints: seq<GraphHint>, now: Stamp)
    requires Graphified(cs, r, hints, now).Success?
    ensures var edges := Graphified(cs, r, hints, now).value.relationships;
            && (forall k :: 0 <= k < |edges| ==> Implied(cs, r, hints, edges[k]))
            && (forall j, k :: 0 <= j < k < |edges| ==>
                  !(edges[j].fromKey == edges[k].fromKey && edges[j].relation == edges[k].relation && edges[j].toKey == edges[k].toKey))
  {
    OutputOf(cs, r, hints, now);
    hide Graphified, Collect, AllHints, EntityNodes, HintGraph, HintEdge, Implied, DedupEdges, DedupNodes, EdgeKept;
    var collected, edges := Collect(cs, r, hints, now).value.1, Graphified(cs, r, hints, now).value.relationships;
    OneEdgePerTriple(collected);
    forall k | 0 <= k < |edges|
      ensures Implied(cs, r, hints, edges[k])
    {
      assert edges[k] in collected;
      EdgeWarranted(cs, r, hints, now, edges[k]);
    }
    forall j, k | 0 <= j < k < |edges|
      ensures !(edges[j].fromKey == edges[k].fromKey && edges[j].relation == edges[k].relation && edges[j].toKey == edges[k].toKey)
    {
      assert !SameTriple(edges[j], edges[k]);
    }
  }

  lemma NodeWarranted(cs: Casing, r: Source, hints: seq<GraphHint>, now: Stamp, n: GraphNode)
    requires Graphified(cs, r, hints, now).Success? && n in Collect(cs, r, hints, now).value.0
    ensures Warranted(cs, r, hints, n)
  {
    var all := AllHints(cs, r, hints);
    OutputOf(cs, r, hints, now);
    hide Graphified, Collect, AllHints, EntityNodes, HintGraph, HintEdge, Used, NodeOf, EntityNode, Trim, InferLabel;
    var entities := EntityNodes(cs, r, |r.entities|, now).value;
    HintGraphAt(cs, r, all, entities, |all|, now);
    EntityNodesAt(cs, r, |r.entities|, now);
    if n in entities {
      var i :| 0 <= i < |r.entities| && Trim(r.entities[i]) != [] && EntityNode(cs, r, r.entities[i], now) == Success(n);
      EntityMeans(cs, r, r.entities[i], now);
    } else {
      var i :| 0 <= i < |all| && (n == HintEdge(cs, r, all[i], now).value.0 || n == HintEdge(cs, r, all[i], now).value.1);
      HintMeans(cs, r, all[i], now);
      UsedAt(cs, r, hints, all[i]);
      assert Used(cs, r, hints, all[i]) && Endpoint(cs, r, all[i], n);
    }
  }

  /** Every node is that of an entity or of an endpoint, and no two have the same key. */
  lemma NodesWarranted(cs: Casing, r: Source, hints: seq<GraphHint>, now: Stamp)
    requires Graphified(cs, r, hints, now).Success?
    ensures var nodes := Graphified(cs, r, hints, now).value.nodes;
            && (forall k :: 0 <= k < |nodes| ==> Warranted(cs, r, hints, nodes[k]))
            && (forall j, k :: 0 <= j < k < |nodes| ==> nodes[j].key != nodes[k].key)
  {
    OutputOf(cs, r, hints, now);
    hide Graphified, Collect, AllHints, EntityNodes, HintGraph, Warranted, DedupEdges, DedupNodes;
    var collected, nodes := Collect(cs, r, hints, now).value, Graphified(cs, r, hints, now).value.nodes;
    OneNodePerKey(collected.0);
    forall k | 0 <= k < |nodes|
      ensures Warranted(cs, r, hints, nodes[k]) && nodes[k].tenant == r.tenant && nodes[k].user == r.user
    {
      assert nodes[k] in collected.0;
      NodeWarranted(cs, r, hints, now, nodes[k]);
      WarrantedScope(cs, r, hints, nodes[k]);
    }
    forall j, k | 0 <= j < k < |nodes|
      ensures nodes[j].key != nodes[k].key
    {
      assert !SameKey(nodes[j], nodes[k]);
    }
  }

  lemma WarrantedScope(cs: Casing, r: Source, hints: seq<GraphHint>, n: GraphNode)
    requires Warranted(cs, r, hints, n)
    ensures n.tenant == r.tenant && n.user == r.user
  {
    hide Used, InferLabel, Trim;
  }

  // ---- When it fails ----

  predicate HintFits(cs: Casing, r: Source, h: GraphHint) {
    && Trim(h.fromKind) in NODE_LABELS && Trim(h.toKind) in NODE_LABELS && MapChars(Trim(h.relation), cs.upper) in RELATIONSHIP_TYPES
    && 0.0 <= h.confidence <= 1.0 && Trim(h.fromName) != [] && Trim(h.toName) != []
    && ValidComponent(r.tenant) && ValidComponent(r.user) && ValidComponent(r.id)
  }

  lemma LabelsTrimmed()
    ensures forall kind :: kind in NODE_LABELS ==> Trim(kind) == kind
  {
    forall kind | kind in NODE_LABELS
      ensures Trim(kind) == kind
    {
      assert !IsSpace(kind[0]) && !IsSpace(kind[|kind| - 1]);
    }
  }

  lemma EntityFits(cs: Casing, r: Source, entity: string, now: Stamp)
    requires Trim(entity) != []
    ensures EntityNode(cs, r, entity, now).Success? <==> ValidComponent(r.tenant) && ValidComponent(r.user)
  {
    LabelsTrimmed();
    hide InferLabel, Trim, ValidComponent, Canonical;
  }

  lemma KeyVisible(cs: Casing, kind: string, name: string)
    requires Trim(kind) in NODE_LABELS
    ensures Trim(KeyText(cs, kind, name)) != []
  {
    LabelStartsVisible(Trim(kind), ":" + Canonical(name, cs));
    assert KeyText(cs, kind, name) == Trim(kind) + (":" + Canonical(name, cs));
  }

  lemma EdgeFitsIff(cs: Casing, r: Source, fromKey: string, relation: string, toKey: string, confidence: real, now: Stamp)
    requires Trim(fromKey) != [] && Trim(toKey) != []
    ensures NewEdge(cs, r.tenant, r.user, fromKey, relation, toKey, confidence, r.id, now).Success? <==>
              (&& ValidScore(confidence) && ValidComponent(r.tenant) && ValidComponent(r.user) && ValidComponent(r.id)
               && MapChars(Trim(relation), cs.upper) in RELATIONSHIP_TYPES)
  {
    hide Trim, MapChars, ValidComponent;
  }

  lemma NodeFitsIff(cs: Casing, r: Source, kind: string, name: string, confidence: real, now: Stamp)
    ensures var node := NewNode(cs, r.tenant, r.user, kind, name, confidence, now);
            && (node.Success? <==>
                  (&& ValidScore(confidence) && ValidComponent(r.tenant) && ValidComponent(r.user)
                   && Trim(kind) in NODE_LABELS && Trim(name) != []))
            && (node.Success? ==> node.value.key == KeyText(cs, kind, name))
  {
    hide Trim, Canonical, ValidComponent;
  }

  lemma HintFitsIff(cs: Casing, r: Source, h: GraphHint, now: Stamp)
    ensures HintEdge(cs, r, h, now).Success? <==> HintFits(cs, r, h)
  {
    hide Trim, ValidComponent, MapChars, KeyText, NewNode, NewEdge;
    NodeFitsIff(cs, r, h.fromKind, h.fromName, h.confidence, now);
    NodeFitsIff(cs, r, h.toKind, h.toName, h.confidence, now);
    if Trim(h.fromKind) in NODE_LABELS && Trim(h.toKind) in NODE_LABELS {
      KeyVisible(cs, h.fromKind, h.fromName);
      KeyVisible(cs, h.toKind, h.toName);
      EdgeFitsIff(cs, r, KeyText(cs, h.fromKind, h.fromName), h.relation, KeyText(cs, h.toKind, h.toName), h.confidence, now);
    }
  }

  lemma {:induction false} EntityNodesSucceed(cs: Casing, r: Source, n: nat, now: Stamp)
    requires n <= |r.entities|
    ensures EntityNodes(cs, r, n, now).Success? <==>
              forall i :: 0 <= i < n && Trim(r.entities[i]) != [] ==> EntityNode(cs, r, r.entities[i], now).Success?
  {
    hide EntityNode, Trim;
    if n > 0 {
      EntityNodesSucceed(cs, r, n - 1, now);
    }
  }

  lemma {:induction false} HintGraphSucceeds(cs: Casing, r: Source, hints: seq<GraphHint>, nodes: seq<GraphNode>, n: nat, now: Stamp)
    requires n <= |hints|
    ensures HintGraph(cs, r, hints, nodes, n, now).Success? <==> forall i :: 0 <= i < n ==> HintEdge(cs, r, hints[i], now).Success?
  {
    hide HintEdge;
    if n > 0 {
      HintGraphSucceeds(cs, r, hints, nodes, n - 1, now);
    }
  }

  /** It succeeds if and only if the scope is valid where an entity is to be kept and every hint that counts fits. */
  lemma SucceedsIff(cs: Casing, r: Source, hints: seq<GraphHint>, now: Stamp)
    ensures Graphified(cs, r, hints, now).Success? <==>
              (&& ((exists i :: 0 <= i < |r.entities| && Trim(r.entities[i]) != []) ==> ValidComponent(r.tenant) && ValidComponent(r.user))
               && forall h :: Used(cs, r, hints, h) ==> HintFits(cs, r, h))
  {
    var all := AllHints(cs, r, hints);
    hide AllHints, EntityNodes, HintGraph, HintEdge, Used, HintFits, EntityNode, Trim, ValidComponent, Assemble;
    EntityNodesSucceed(cs, r, |r.entities|, now);
    forall i | 0 <= i < |r.entities| && Trim(r.entities[i]) != []
      ensures EntityNode(cs, r, r.entities[i], now).Success? <==> ValidComponent(r.tenant) && ValidComponent(r.user)
    {
      EntityFits(cs, r, r.entities[i], now);
    }
    forall h
      ensures Used(cs, r, hints, h) <==> h in all
      ensures HintEdge(cs, r, h, now).Success? <==> HintFits(cs, r, h)
    {
      UsedAt(cs, r, hints, h);
      HintFitsIff(cs, r, h, now);
    }
    if EntityNodes(cs, r, |r.entities|, now).Success? {
      HintGraphSucceeds(cs, r, all, EntityNodes(cs, r, |r.entities|, now).value, |all|, now);
    }
    assert forall i :: 0 <= i < |all| ==> all[i] in all;
  }
}
