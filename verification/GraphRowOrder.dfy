/**
 The rows of one graph replacement. The query binds each edge's source list before it writes it, and a
 query planner may do so row by row or for all rows first. This module compares the two.
 */
module GraphRowOrder {
  import opened GraphEdges
  import opened GraphModel
  import opened GraphStore
  import opened Sequences

  /** The row as it was bound: the edge found, or the one its first row creates. */
  function Bound(found: Edges, edges: Edges, k: EdgeKey, e: GraphEdge): EdgeRow {
    if k in found then found[k] else BlankRow(if k in edges then edges[k].createdAt else e.createdAt)
  }

  /** One row written from the list that was bound before any row was written. */
  function AddBound(found: Edges, edges: Edges, scope: Scope, m: Id, e: GraphEdge): Edges {
    var k := KeyOf(scope, e);
    edges[k := AppendSource(Bound(found, edges, k, e), m, Evidence(e.confidence, e.lastConfirmed))]
  }

  /** All rows bound first, then written in order. */
  function AddAtOnce(found: Edges, scope: Scope, m: Id, es: seq<GraphEdge>): Edges {
    if es == [] then found else AddBound(found, AddAtOnce(found, scope, m, es[..|es| - 1]), scope, m, es[|es| - 1])
  }

  /** No edge of the scope lists the source. */
  predicate Unlisted(edges: Edges, scope: Scope, m: Id) {
    forall k: EdgeKey :: k.scope == scope && k in edges ==> m !in edges[k].ids
  }

  lemma BoundValid(found: Edges, edges: Edges, scope: Scope, m: Id, e: GraphEdge)
    requires ValidEdges(found) && ValidEdges(edges) && Unlisted(found, scope, m) && e.confidence >= 0.0
    ensures ValidEdges(AddBound(found, edges, scope, m, e))
  {
    hide AppendSource, Distinct, NonNegative, Full;
    var k := KeyOf(scope, e);
    var row := Bound(found, edges, k, e);
    BlankRowEmpty(row.createdAt);
    AppendSourceSound(row, m, Evidence(e.confidence, e.lastConfirmed));
    AppendListsSource(row, m, Evidence(e.confidence, e.lastConfirmed));
  }

  /** Bound first, even a repeated triple lists its source once. */
  lemma {:induction false} AtOnceValid(found: Edges, scope: Scope, m: Id, es: seq<GraphEdge>)
    requires ValidEdges(found) && Unlisted(found, scope, m) && Scored(es)
    ensures ValidEdges(AddAtOnce(found, scope, m, es))
  {
    hide ValidEdges, AddBound, Unlisted;
    if es != [] {
      AtOnceValid(found, scope, m, es[..|es| - 1]);
      BoundValid(found, AddAtOnce(found, scope, m, es[..|es| - 1]), scope, m, es[|es| - 1]);
    }
  }

  /** A triple that no earlier row names is still as it was found. */
  lemma {:induction false} Untouched(edges: Edges, scope: Scope, m: Id, es: seq<GraphEdge>, k: EdgeKey)
    requires forall i :: 0 <= i < |es| ==> KeyOf(scope, es[i]) != k
    ensures k in AddEdges(edges, scope, m, es) <==> k in edges
    ensures k in edges ==> AddEdges(edges, scope, m, es)[k] == edges[k]
  {
    hide AddEdge;
    if es != [] {
      Untouched(edges, scope, m, es[..|es| - 1], k);
      AddEdgeElsewhere(AddEdges(edges, scope, m, es[..|es| - 1]), scope, m, es[|es| - 1], k);
    }
  }

  lemma {:induction false} SameWhenDistinct(edges: Edges, scope: Scope, m: Id, es: seq<GraphEdge>)
    requires DistinctTriples(es)
    ensures AddAtOnce(edges, scope, m, es) == AddEdges(edges, scope, m, es)
  {
    hide AppendSource, Recached;
    if es != [] {
      var n := |es| - 1;
      SameWhenDistinct(edges, scope, m, es[..n]);
      Untouched(edges, scope, m, es[..n], KeyOf(scope, es[n]));
    }
  }

  /** The two agree if and only if the triples are distinct: with a repeated one, row by row lists the source twice and bound first does not. */
  lemma RowOrderIff(edges: Edges, scope: Scope, m: Id, es: seq<GraphEdge>)
    requires ValidEdges(edges) && Scored(es)
    ensures var cleared := RemoveMemory(edges, scope, m);
            && (AddAtOnce(cleared, scope, m, es) == Replace(edges, scope, m, es) <==> DistinctTriples(es))
            && ValidEdges(AddAtOnce(cleared, scope, m, es))
  {
    hide ValidEdges, AddEdges, AddAtOnce, RemoveMemory, Scored;
    var cleared := RemoveMemory(edges, scope, m);
    RemoveMemoryValid(edges, scope, m);
    AtOnceValid(cleared, scope, m, es);
    ReplaceValidIff(edges, scope, m, es);
    if DistinctTriples(es) {
      SameWhenDistinct(cleared, scope, m, es);
    }
  }

  /** Row by row, one edge given twice lists its source twice. */
  lemma RepeatedTripleExample(scope: Scope, m: Id, e: GraphEdge)
    requires e.confidence >= 0.0
    ensures var k, rows := KeyOf(scope, e), Replace(map[], scope, m, [e, e]);
            k in rows && rows[k].ids == [m, m] && !ValidEdges(rows)
    ensures var k, rows := KeyOf(scope, e), AddAtOnce(map[], scope, m, [e, e]);
            k in rows && rows[k].ids == [m]
  {
    hide AppendSource, Recached;
    var k, v := KeyOf(scope, e), Evidence(e.confidence, e.lastConfirmed);
    assert RemoveMemory(map[], scope, m) == map[];
    assert [e, e][..1] == [e] && [e][..0] == [];
    AppendListsSource(BlankRow(e.createdAt), m, v);
    assert AddEdges(map[], scope, m, [e]) == AddEdge(map[], scope, m, e);
    AppendListsSource(AppendSource(BlankRow(e.createdAt), m, v), m, v);
    assert AddEdges(map[], scope, m, [e, e]) == AddEdge(AddEdge(map[], scope, m, e), scope, m, e);
    assert AddAtOnce(map[], scope, m, [e]) == AddBound(map[], map[], scope, m, e);
    AppendKeepsCreation(BlankRow(e.createdAt), m, v);
    assert Replace(map[], scope, m, [e, e])[k].ids[0] == Replace(map[], scope, m, [e, e])[k].ids[1];
  }

  lemma AppendKeepsCreation(row: EdgeRow, m: Id, v: Evidence)
    ensures AppendSource(row, m, v).createdAt == row.createdAt
  {
  }
}
