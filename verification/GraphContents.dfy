/**
 What the graph's writes leave in the columns of its rows: which triples and nodes are stored, which
 sources they list with which scores and stamps, and when they say they were created.
 */
module GraphContents {
  import opened Wrappers
  import opened GraphEdges
  import opened GraphModel
  import opened GraphStore
  import opened Sequences

  /** Column i of a row lists the source, with its own score and stamp or, where the lists are too short, the cached ones. */
  predicate ColumnReads(row: EdgeRow, i: nat, id: string, score: real, stamp: nat) {
    && i < |row.ids| && row.ids[i] == id
    && score == (if i < |row.confidences| then row.confidences[i] else row.confidence)
    && stamp == (if i < |row.confirmations| then row.confirmations[i] else row.lastConfirmed)
  }

  predicate Reads(row: EdgeRow, id: string, score: real, stamp: nat) {
    exists i :: 0 <= i < |row.ids| && ColumnReads(row, i, id, score, stamp)
  }

  lemma EvidenceReads(row: EdgeRow, id: string, score: real, stamp: nat)
    requires Distinct(row.ids)
    ensures EvidenceOf(row, id) == Some(Evidence(score, stamp)) <==> Reads(row, id, score, stamp)
  {
    if id in row.ids {
      var i :| 0 <= i < |row.ids| && row.ids[i] == id;
      EvidenceAt(row, i);
      assert ColumnReads(row, i, id, At(row, i).confidence, At(row, i).confirmed);
    }
  }

  /** The row of a triple in a scope lists the source with this score and stamp. */
  predicate Says(edges: Edges, scope: Scope, fromKey: string, relation: string, toKey: string, id: string, score: real, stamp: nat) {
    var k := EdgeKey(scope, fromKey, relation, toKey);
    k in edges && Reads(edges[k], id, score, stamp)
  }

  lemma EvidenceSays(edges: Edges, k: EdgeKey, id: string, score: real, stamp: nat)
    requires ValidEdges(edges)
    ensures EvidenceIn(edges, k, id) == Some(Evidence(score, stamp)) <==> Says(edges, k.scope, k.fromKey, k.relation, k.toKey, id, score, stamp)
  {
    hide Reads, EvidenceOf, Distinct, NonNegative;
    if k in edges {
      EvidenceReads(edges[k], id, score, stamp);
    }
  }

  predicate Lists(es: seq<GraphEdge>, fromKey: string, relation: string, toKey: string, score: real, stamp: nat) {
    exists i :: 0 <= i < |es| && es[i].fromKey == fromKey && es[i].relation == relation && es[i].toKey == toKey
                && es[i].confidence == score && es[i].lastConfirmed == stamp
  }

  lemma {:induction false} ProposedLists(scope: Scope, es: seq<GraphEdge>, k: EdgeKey, score: real, stamp: nat)
    requires DistinctTriples(es)
    ensures Proposed(scope, es, k) == Some(Evidence(score, stamp)) <==> k.scope == scope && Lists(es, k.fromKey, k.relation, k.toKey, score, stamp)
  {
    if es != [] {
      var n := |es| - 1;
      ProposedLists(scope, es[..n], k, score, stamp);
      if Lists(es, k.fromKey, k.relation, k.toKey, score, stamp) && k.scope == scope {
        var i :| 0 <= i < |es| && es[i].fromKey == k.fromKey && es[i].relation == k.relation && es[i].toKey == k.toKey
                 && es[i].confidence == score && es[i].lastConfirmed == stamp;
        assert i < n ==> es[..n][i] == es[i];
      }
    }
  }

  /**
   After a replacement the memory says in its scope exactly what the edges list, triple by triple with
   their scores and stamps; every other memory and every other scope says what it said before.
   */
  lemma ReplaceSays(edges: Edges, scope: Scope, m: string, es: seq<GraphEdge>, place: Scope, fromKey: string, relation: string, toKey: string, id: string, score: real, stamp: nat)
    requires ValidEdges(edges) && Scored(es) && DistinctTriples(es)
    ensures Says(Replace(edges, scope, m, es), place, fromKey, relation, toKey, id, score, stamp) <==>
              if place == scope && id == m then Lists(es, fromKey, relation, toKey, score, stamp)
              else Says(edges, place, fromKey, relation, toKey, id, score, stamp)
  {
    hide Says, Lists, EvidenceIn, Proposed, ValidEdges, Replace, Scored, DistinctTriples;
    var k := EdgeKey(place, fromKey, relation, toKey);
    ReplaceMeans(edges, scope, m, es);
    EvidenceSays(edges, k, id, score, stamp);
    EvidenceSays(Replace(edges, scope, m, es), k, id, score, stamp);
    ProposedLists(scope, es, k, score, stamp);
  }

  /** After a merge exactly the sources the edge names say what it says; everything else is as it was. */
  lemma MergeSays(edges: Edges, e: GraphEdge, place: Scope, fromKey: string, relation: string, toKey: string, id: string, score: real, stamp: nat)
    requires ValidEdges(edges) && e.confidence >= 0.0 && e.sources != []
    ensures Says(Merge(edges, e), place, fromKey, relation, toKey, id, score, stamp) <==>
              if place == Scope(e.tenant, e.user) && fromKey == e.fromKey && relation == e.relation && toKey == e.toKey && id in e.sources
              then score == e.confidence && stamp == e.lastConfirmed
              else Says(edges, place, fromKey, relation, toKey, id, score, stamp)
  {
    hide Says, EvidenceIn, ValidEdges, Merge;
    var k := EdgeKey(place, fromKey, relation, toKey);
    MergeMeans(edges, e, k, id);
    MergeValid(edges, e);
    EvidenceSays(edges, k, id, score, stamp);
    EvidenceSays(Merge(edges, e), k, id, score, stamp);
  }

  /** After a redaction the memory says nothing in its scope; everything else is as it was. */
  lemma RedactSays(edges: Edges, scope: Scope, m: string, place: Scope, fromKey: string, relation: string, toKey: string, id: string, score: real, stamp: nat)
    requires ValidEdges(edges)
    ensures Says(RemoveMemory(edges, scope, m), place, fromKey, relation, toKey, id, score, stamp) <==>
              !(place == scope && id == m) && Says(edges, place, fromKey, relation, toKey, id, score, stamp)
  {
    hide Says, EvidenceIn, ValidEdges, RemoveMemory;
    var k := EdgeKey(place, fromKey, relation, toKey);
    RemoveMemoryMeans(edges, scope, m, k, id);
    RemoveMemoryValid(edges, scope, m);
    EvidenceSays(edges, k, id, score, stamp);
    EvidenceSays(RemoveMemory(edges, scope, m), k, id, score, stamp);
  }

  // ---- The cached columns ----

  /** A complete row's score is the greatest it lists, and its stamp the latest. */
  lemma CachesMean(row: EdgeRow)
    requires Sound(row) && row.ids != []
    ensures |row.confidences| == |row.confirmations| == |row.ids|
    ensures row.confidence in row.confidences && forall score :: score in row.confidences ==> score <= row.confidence
    ensures row.lastConfirmed in row.confirmations && forall stamp :: stamp in row.confirmations ==> stamp <= row.lastConfirmed
  {
    assert row.confidences[0] in row.confidences && row.confirmations[0] in row.confirmations;
  }

  // ---- Creation times ----

  /** The row lists a source other than this one. */
  predicate ListsAnother(row: EdgeRow, m: string) {
    exists i :: 0 <= i < |row.ids| && row.ids[i] != m
  }

  lemma RemovedCreated(row: EdgeRow, m: string)
    ensures Removed(row, m).Some? <==> ListsAnother(row, m)
    ensures Removed(row, m).Some? ==> Removed(row, m).value.createdAt == row.createdAt
  {
    var keep := Keep(row.ids, m);
    if keep != [] {
      assert row.ids[keep[0]] != m;
    }
  }

  predicate Names(e: GraphEdge, k: EdgeKey) {
    e.fromKey == k.fromKey && e.relation == k.relation && e.toKey == k.toKey
  }

  /** The first of the edges that names the key in the scope. */
  predicate FirstNaming(scope: Scope, es: seq<GraphEdge>, k: EdgeKey, i: nat) {
    i < |es| && k.scope == scope && Names(es[i], k) && forall j :: 0 <= j < i ==> !Names(es[j], k)
  }

  predicate Unnamed(scope: Scope, es: seq<GraphEdge>, k: EdgeKey) {
    k.scope == scope ==> forall i :: 0 <= i < |es| ==> !Names(es[i], k)
  }

  lemma {:induction false} AddEdgesCreated(edges: Edges, scope: Scope, m: string, es: seq<GraphEdge>, k: EdgeKey)
    ensures k in edges ==> k in AddEdges(edges, scope, m, es) && AddEdges(edges, scope, m, es)[k].createdAt == edges[k].createdAt
    ensures k in edges && Unnamed(scope, es, k) ==> AddEdges(edges, scope, m, es)[k] == edges[k]
    ensures k !in edges && Unnamed(scope, es, k) ==> k !in AddEdges(edges, scope, m, es)
    ensures forall i: nat :: k !in edges && FirstNaming(scope, es, k, i) ==>
              k in AddEdges(edges, scope, m, es) && AddEdges(edges, scope, m, es)[k].createdAt == es[i].createdAt
  {
    hide AppendSource;
    if es != [] {
      var n := |es| - 1;
      AddEdgesCreated(edges, scope, m, es[..n], k);
      AppendKeepsCreated(edges, scope, m, es);
      assert Unnamed(scope, es, k) ==> Unnamed(scope, es[..n], k);
      forall i: nat | k !in edges && FirstNaming(scope, es, k, i)
        ensures k in AddEdges(edges, scope, m, es) && AddEdges(edges, scope, m, es)[k].createdAt == es[i].createdAt
      {
        if i < n {
          assert FirstNaming(scope, es[..n], k, i);
        } else {
          assert Unnamed(scope, es[..n], k);
        }
      }
    }
  }

  lemma AppendKeepsCreated(edges: Edges, scope: Scope, m: string, es: seq<GraphEdge>)
    ensures forall row: EdgeRow, v: Evidence :: AppendSource(row, m, v).createdAt == row.createdAt
  {
  }

  /**
   The rows of a replacement: a triple is stored afterwards if and only if the edges name it or another
   memory is listed there. It was created when it was before if another memory was listed, and with the
   first edge that names it otherwise. A row that neither listed the memory nor is named is as it was.
   */
  lemma ReplaceRows(edges: Edges, scope: Scope, m: string, es: seq<GraphEdge>, k: EdgeKey)
    requires ValidEdges(edges)
    ensures var after, kept := Replace(edges, scope, m, es), k in edges && (k.scope != scope || ListsAnother(edges[k], m));
            && (k in after <==> kept || !Unnamed(scope, es, k))
            && (kept ==> k in after && after[k].createdAt == edges[k].createdAt)
            && (forall i: nat :: !kept && FirstNaming(scope, es, k, i) ==> k in after && after[k].createdAt == es[i].createdAt)
            && (k in edges && Unnamed(scope, es, k) && (k.scope != scope || m !in edges[k].ids) ==> k in after && after[k] == edges[k])
  {
    hide AddEdges, Removed, Unnamed, Distinct, NonNegative;
    AddEdgesCreated(RemoveMemory(edges, scope, m), scope, m, es, k);
    if k in edges {
      RemovedCreated(edges[k], m);
      assert ValidRow(edges[k]);
      assert edges[k].ids[0] in edges[k].ids;
    }
    if !Unnamed(scope, es, k) {
      FirstNamed(scope, es, k);
    }
  }

  lemma {:induction false} FirstNamed(scope: Scope, es: seq<GraphEdge>, k: EdgeKey)
    requires !Unnamed(scope, es, k)
    ensures exists i: nat :: FirstNaming(scope, es, k, i)
  {
    var n := |es| - 1;
    if Unnamed(scope, es[..n], k) {
      assert FirstNaming(scope, es, k, n);
    } else {
      FirstNamed(scope, es[..n], k);
      var i: nat :| FirstNaming(scope, es[..n], k, i);
      assert FirstNaming(scope, es, k, i);
    }
  }

  // ---- Nodes ----

  predicate IsNode(n: GraphNode, tenant: string, user: string, key: string) {
    n.tenant == tenant && n.user == user && n.key == key
  }

  /** None of the nodes from i up to j is this one. */
  predicate NoneOf(ns: seq<GraphNode>, i: nat, j: nat, tenant: string, user: string, key: string) {
    forall l :: i <= l < j && l < |ns| ==> !IsNode(ns[l], tenant, user, key)
  }

  /** Node i is the last one written here, and the store has its name and score. */
  predicate Written(after: Nodes, ns: seq<GraphNode>, p: nat, i: nat, tenant: string, user: string, key: string) {
    i < p <= |ns| && IsNode(ns[i], tenant, user, key) && NoneOf(ns, i + 1, p, tenant, user, key) ==>
      var k := NodeKey(Scope(tenant, user), key);
      k in after && after[k].name == ns[i].name && after[k].confidence == ns[i].confidence
  }

  /** Node i is the first one written here, and the store has its creation time. */
  predicate Created(after: Nodes, ns: seq<GraphNode>, p: nat, i: nat, tenant: string, user: string, key: string) {
    i < p <= |ns| && IsNode(ns[i], tenant, user, key) && NoneOf(ns, 0, i, tenant, user, key) ==>
      var k := NodeKey(Scope(tenant, user), key);
      k in after && after[k].createdAt == ns[i].createdAt
  }

  lemma OneNode(nodes: Nodes, n: GraphNode, tenant: string, user: string, key: string)
    ensures var k, after := NodeKey(Scope(tenant, user), key), PutNode(nodes, n);
            && (!IsNode(n, tenant, user, key) ==> (k in after <==> k in nodes) && (k in nodes ==> after[k] == nodes[k]))
            && (IsNode(n, tenant, user, key) ==> k in after && after[k].name == n.name && after[k].confidence == n.confidence
                                                 && after[k].createdAt == if k in nodes then nodes[k].createdAt else n.createdAt)
  {
  }

  lemma {:induction false} NodesUpTo(nodes: Nodes, ns: seq<GraphNode>, p: nat, tenant: string, user: string, key: string)
    requires p <= |ns|
    ensures var k, after := NodeKey(Scope(tenant, user), key), PutNodes(nodes, ns[..p]);
            && (NoneOf(ns, 0, p, tenant, user, key) ==> (k in after <==> k in nodes) && (k in nodes ==> after[k] == nodes[k]))
            && (k in nodes ==> k in after && after[k].createdAt == nodes[k].createdAt)
            && (forall i: nat :: Written(after, ns, p, i, tenant, user, key))
            && (k !in nodes ==> forall i: nat :: Created(after, ns, p, i, tenant, user, key))
  {
    if p > 0 {
      assert ns[..p][..p - 1] == ns[..p - 1];
      NodesUpTo(nodes, ns, p - 1, tenant, user, key);
      OneNode(PutNodes(nodes, ns[..p - 1]), ns[p - 1], tenant, user, key);
      NodeStep(nodes, PutNodes(nodes, ns[..p - 1]), PutNodes(nodes, ns[..p]), ns, p - 1, p, tenant, user, key);
    }
  }

  lemma NodeStep(nodes: Nodes, before: Nodes, after: Nodes, ns: seq<GraphNode>, q: nat, p: nat, tenant: string, user: string, key: string)
    requires p == q + 1 <= |ns| && after == PutNode(before, ns[q])
    requires NoneOf(ns, 0, q, tenant, user, key) ==> (NodeKey(Scope(tenant, user), key) in before <==> NodeKey(Scope(tenant, user), key) in nodes)
    requires forall i: nat :: Written(before, ns, q, i, tenant, user, key)
    requires NodeKey(Scope(tenant, user), key) !in nodes ==> forall i: nat :: Created(before, ns, q, i, tenant, user, key)
    ensures forall i: nat :: Written(after, ns, p, i, tenant, user, key)
    ensures NodeKey(Scope(tenant, user), key) !in nodes ==> forall i: nat :: Created(after, ns, p, i, tenant, user, key)
  {
    hide PutNode;
    OneNode(before, ns[q], tenant, user, key);
    forall i: nat
      ensures Written(after, ns, p, i, tenant, user, key)
    {
      assert Written(before, ns, q, i, tenant, user, key);
      assert i < p && NoneOf(ns, i + 1, p, tenant, user, key) ==> NoneOf(ns, i + 1, q, tenant, user, key);
    }
    if NodeKey(Scope(tenant, user), key) !in nodes {
      forall i: nat
        ensures Created(after, ns, p, i, tenant, user, key)
      {
        assert Created(before, ns, q, i, tenant, user, key);
        FirstIsFound(ns, q, tenant, user, key);
      }
    }
  }

  /** Among the nodes up to q either none is this one or one is the first. */
  lemma {:induction false} FirstIsFound(ns: seq<GraphNode>, q: nat, tenant: string, user: string, key: string)
    requires q <= |ns|
    ensures NoneOf(ns, 0, q, tenant, user, key) || exists i: nat :: i < q && IsNode(ns[i], tenant, user, key) && NoneOf(ns, 0, i, tenant, user, key)
  {
    if q > 0 {
      FirstIsFound(ns, q - 1, tenant, user, key);
    }
  }

  /**
   A node is stored after a write if it was before or is among the nodes written. Its name and score are
   those of the last node written for it, its creation time the one it had or else that of the first.
   */
  lemma NodesMean(nodes: Nodes, ns: seq<GraphNode>, tenant: string, user: string, key: string)
    ensures var k, after := NodeKey(Scope(tenant, user), key), PutNodes(nodes, ns);
            && (k in after <==> k in nodes || exists i: nat :: i < |ns| && IsNode(ns[i], tenant, user, key))
            && (NoneOf(ns, 0, |ns|, tenant, user, key) && k in nodes ==> after[k] == nodes[k])
            && (forall i: nat :: Written(after, ns, |ns|, i, tenant, user, key))
            && (k in nodes ==> after[k].createdAt == nodes[k].createdAt)
            && (k !in nodes ==> forall i: nat :: Created(after, ns, |ns|, i, tenant, user, key))
  {
    assert ns[..|ns|] == ns;
    NodesUpTo(nodes, ns, |ns|, tenant, user, key);
    PutNodesHolds(nodes, ns);
  }
}
