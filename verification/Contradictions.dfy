/** Opposed evidence: a proposition is reported when both it and its NOT_ form occur among the edges. */
module Contradictions {
  import opened GraphModel
  import opened Sequences

  datatype Proposition = Proposition(tenant: string, user: string, fromKey: string, relation: string, toKey: string)

  const POSITIVE: bv8 := 1
  const NEGATED: bv8 := 2

  function Polarity(e: GraphEdge): (p: bv8)
    ensures p == POSITIVE || p == NEGATED
  {
    if StripPrefix(e.relation, "NOT_").Some? then NEGATED else POSITIVE
  }

  function PropositionOf(e: GraphEdge): Proposition {
    var stripped := StripPrefix(e.relation, "NOT_");
    Proposition(e.tenant, e.user, e.fromKey, if stripped.Some? then stripped.value else e.relation, e.toKey)
  }

  function Message(p: Proposition): string {
    "opposed " + p.relation + " evidence for " + p.fromKey + " -> " + p.toKey
  }

  function Messages(ps: seq<Proposition>): seq<string> {
    seq(|ps|, i requires 0 <= i < |ps| => Message(ps[i]))
  }

  predicate Occurs(edges: seq<GraphEdge>, p: Proposition, polarity: bv8) {
    exists i :: 0 <= i < |edges| && PropositionOf(edges[i]) == p && Polarity(edges[i]) == polarity
  }

  predicate Opposed(edges: seq<GraphEdge>, p: Proposition) {
    Occurs(edges, p, POSITIVE) && Occurs(edges, p, NEGATED)
  }

  /** Propositions in the order in which their second polarity shows up. */
  function Conflicts(edges: seq<GraphEdge>): seq<Proposition> {
    if edges == [] then []
    else
      var n := |edges| - 1;
      var p := PropositionOf(edges[n]);
      Conflicts(edges[..n]) + if !Opposed(edges[..n], p) && Opposed(edges, p) then [p] else []
  }

  lemma OccursMore(edges: seq<GraphEdge>, p: Proposition, polarity: bv8)
    requires edges != []
    ensures var n := |edges| - 1;
            Occurs(edges, p, polarity) <==>
              Occurs(edges[..n], p, polarity) || (PropositionOf(edges[n]) == p && Polarity(edges[n]) == polarity)
  {
    hide PropositionOf, Polarity;
    var n := |edges| - 1;
    if Occurs(edges[..n], p, polarity) {
      var i :| 0 <= i < n && PropositionOf(edges[..n][i]) == p && Polarity(edges[..n][i]) == polarity;
      assert edges[i] == edges[..n][i];
    }
    if Occurs(edges, p, polarity) && !(PropositionOf(edges[n]) == p && Polarity(edges[n]) == polarity) {
      var i :| 0 <= i < |edges| && PropositionOf(edges[i]) == p && Polarity(edges[i]) == polarity;
      assert edges[i] == edges[..n][i];
    }
  }

  /** Each proposition is reported once if and only if both its forms occur. */
  lemma {:induction false} ConflictsExact(edges: seq<GraphEdge>)
    ensures Distinct(Conflicts(edges))
    ensures forall p :: p in Conflicts(edges) <==> Opposed(edges, p)
  {
    if edges != [] {
      var n := |edges| - 1;
      ConflictsExact(edges[..n]);
      forall p
        ensures p in Conflicts(edges) <==> Opposed(edges, p)
      {
        OccursMore(edges, p, POSITIVE);
        OccursMore(edges, p, NEGATED);
      }
    }
  }

  /** The edge has the proposition's scope and ends, under this relation. */
  predicate Says(e: GraphEdge, p: Proposition, relation: string) {
    e.tenant == p.tenant && e.user == p.user && e.fromKey == p.fromKey && e.toKey == p.toKey && e.relation == relation
  }

  /** One edge says it and another says NOT_ of it. */
  predicate Contradicted(edges: seq<GraphEdge>, p: Proposition) {
    && !("NOT_" <= p.relation)
    && (exists i :: 0 <= i < |edges| && Says(edges[i], p, p.relation))
    && (exists j :: 0 <= j < |edges| && Says(edges[j], p, "NOT_" + p.relation))
  }

  lemma OneSays(e: GraphEdge, p: Proposition)
    ensures PropositionOf(e) == p && Polarity(e) == POSITIVE <==> !("NOT_" <= p.relation) && Says(e, p, p.relation)
    ensures PropositionOf(e) == p && Polarity(e) == NEGATED <==> Says(e, p, "NOT_" + p.relation)
  {
    assert "NOT_" <= e.relation ==> e.relation == "NOT_" + e.relation[4..];
    assert ("NOT_" + p.relation)[4..] == p.relation;
  }

  lemma OpposedMeans(edges: seq<GraphEdge>, p: Proposition)
    ensures Opposed(edges, p) <==> Contradicted(edges, p)
  {
    forall i | 0 <= i < |edges|
      ensures PropositionOf(edges[i]) == p && Polarity(edges[i]) == POSITIVE <==> !("NOT_" <= p.relation) && Says(edges[i], p, p.relation)
      ensures PropositionOf(edges[i]) == p && Polarity(edges[i]) == NEGATED <==> Says(edges[i], p, "NOT_" + p.relation)
    {
      OneSays(edges[i], p);
    }
    hide PropositionOf, Polarity, Says;
  }

  /**
   What is reported: one message for each relation between two ends in one scope that some edge asserts and
   some edge negates, and no other.
   */
  lemma MessagesExact(edges: seq<GraphEdge>)
    ensures var ps := Conflicts(edges);
            && Distinct(ps) && (forall p :: p in ps <==> Contradicted(edges, p))
            && |Messages(ps)| == |ps|
            && forall i :: 0 <= i < |ps| ==>
                 Messages(ps)[i] == "opposed " + ps[i].relation + " evidence for " + ps[i].fromKey + " -> " + ps[i].toKey
  {
    ConflictsExact(edges);
    forall p
      ensures Opposed(edges, p) <==> Contradicted(edges, p)
    {
      OpposedMeans(edges, p);
    }
    hide Opposed, Contradicted, Conflicts;
  }

  lemma MessagesTell(edges: seq<GraphEdge>)
    ensures forall p :: Contradicted(edges, p) ==> "opposed " + p.relation + " evidence for " + p.fromKey + " -> " + p.toKey in Messages(Conflicts(edges))
    ensures (exists p :: Contradicted(edges, p)) <==> Messages(Conflicts(edges)) != []
  {
    var ps := Conflicts(edges);
    MessagesExact(edges);
    hide Conflicts, Contradicted, Messages;
    forall p | Contradicted(edges, p)
      ensures "opposed " + p.relation + " evidence for " + p.fromKey + " -> " + p.toKey in Messages(ps)
    {
      var k :| 0 <= k < |ps| && ps[k] == p;
      assert Messages(ps)[k] in Messages(ps);
    }
    if ps != [] {
      assert ps[0] in ps;
    }
  }

  lemma SameOccurrences(a: seq<GraphEdge>, b: seq<GraphEdge>, p: Proposition, polarity: bv8)
    requires forall e :: e in a ==> e in b
    ensures Occurs(a, p, polarity) ==> Occurs(b, p, polarity)
  {
    if Occurs(a, p, polarity) {
      var i :| 0 <= i < |a| && PropositionOf(a[i]) == p && Polarity(a[i]) == polarity;
      assert a[i] in b;
      var j :| 0 <= j < |b| && b[j] == a[i];
    }
  }

  /** Neither the order nor the multiplicity of the edges changes what is reported, or how often. */
  lemma ConflictsIgnoreOrder(a: seq<GraphEdge>, b: seq<GraphEdge>)
    requires forall e :: e in a <==> e in b
    ensures multiset(Conflicts(a)) == multiset(Conflicts(b))
  {
    ConflictsExact(a);
    ConflictsExact(b);
    forall p
      ensures p in Conflicts(a) <==> p in Conflicts(b)
    {
      SameOccurrences(a, b, p, POSITIVE);
      SameOccurrences(a, b, p, NEGATED);
      SameOccurrences(b, a, p, POSITIVE);
      SameOccurrences(b, a, p, NEGATED);
    }
    SameElements(Conflicts(a), Conflicts(b));
  }

  function BitsOf(edges: seq<GraphEdge>, p: Proposition): bv8 {
    (if Occurs(edges, p, POSITIVE) then POSITIVE else 0) | (if Occurs(edges, p, NEGATED) then NEGATED else 0)
  }

  ghost predicate Tracked(edges: seq<GraphEdge>, seen: map<Proposition, bv8>) {
    forall p :: (p in seen <==> Occurs(edges, p, POSITIVE) || Occurs(edges, p, NEGATED)) && (p in seen ==> seen[p] == BitsOf(edges, p))
  }

  lemma MaskStep(edges: seq<GraphEdge>, seen: map<Proposition, bv8>, p: Proposition, mask: bv8)
    requires edges != [] && Tracked(edges[..|edges| - 1], seen) && p == PropositionOf(edges[|edges| - 1])
    requires mask == if p in seen then seen[p] else 0
    ensures mask | Polarity(edges[|edges| - 1]) == BitsOf(edges, p)
    ensures (mask != 0 && mask & Polarity(edges[|edges| - 1]) == 0) <==> (!Opposed(edges[..|edges| - 1], p) && Opposed(edges, p))
  {
    OccursMore(edges, p, POSITIVE);
    OccursMore(edges, p, NEGATED);
  }

  lemma TrackedStep(edges: seq<GraphEdge>, seen: map<Proposition, bv8>, p: Proposition, mask: bv8)
    requires edges != [] && Tracked(edges[..|edges| - 1], seen) && p == PropositionOf(edges[|edges| - 1])
    requires mask == BitsOf(edges, p)
    ensures Tracked(edges, seen[p := mask])
  {
    forall q
      ensures Occurs(edges, q, POSITIVE) <==> Occurs(edges[..|edges| - 1], q, POSITIVE) || (q == p && Polarity(edges[|edges| - 1]) == POSITIVE)
      ensures Occurs(edges, q, NEGATED) <==> Occurs(edges[..|edges| - 1], q, NEGATED) || (q == p && Polarity(edges[|edges| - 1]) == NEGATED)
    {
      OccursMore(edges, q, POSITIVE);
      OccursMore(edges, q, NEGATED);
    }
  }

  lemma MessagesStep(edges: seq<GraphEdge>, p: Proposition, opposes: bool)
    requires edges != [] && p == PropositionOf(edges[|edges| - 1])
    requires opposes <==> !Opposed(edges[..|edges| - 1], p) && Opposed(edges, p)
    ensures Messages(Conflicts(edges)) == Messages(Conflicts(edges[..|edges| - 1])) + if opposes then [Message(p)] else []
  {
    hide PropositionOf, Opposed, Message;
  }

  /** What the loop knows after the edges taken so far. */
  ghost predicate Reported(edges: seq<GraphEdge>, seen: map<Proposition, bv8>, conflicts: seq<string>) {
    Tracked(edges, seen) && conflicts == Messages(Conflicts(edges))
  }

  lemma ReportedStep(edges: seq<GraphEdge>, seen: map<Proposition, bv8>, conflicts: seq<string>, p: Proposition, mask: bv8, polarity: bv8)
    requires edges != [] && Reported(edges[..|edges| - 1], seen, conflicts)
    requires p == PropositionOf(edges[|edges| - 1]) && polarity == Polarity(edges[|edges| - 1])
    requires mask == if p in seen then seen[p] else 0
    ensures Reported(edges, seen[p := mask | polarity], conflicts + if mask != 0 && mask & polarity == 0 then [Message(p)] else [])
  {
    MaskStep(edges, seen, p, mask);
    TrackedStep(edges, seen, p, mask | polarity);
    MessagesStep(edges, p, mask != 0 && mask & polarity == 0);
  }

  lemma NothingReported()
    ensures Reported([], map[], [])
  {
  }

  lemma ReportedAll(edges: seq<GraphEdge>, seen: map<Proposition, bv8>, conflicts: seq<string>)
    requires Reported(edges, seen, conflicts)
    ensures conflicts == Messages(Conflicts(edges))
  {
  }

  /** One pass over the edges with a mask of the polarities seen per proposition. */
  method FindContradictions(edges: seq<GraphEdge>) returns (conflicts: seq<string>)
    ensures conflicts == Messages(Conflicts(edges))
    ensures forall p :: Contradicted(edges, p) ==> "opposed " + p.relation + " evidence for " + p.fromKey + " -> " + p.toKey in conflicts
    ensures (exists p :: Contradicted(edges, p)) <==> conflicts != []
  {
    hide Messages, Conflicts, Reported, Contradicted, PropositionOf;
    conflicts := [];
    var seen: map<Proposition, bv8> := map[];
    NothingReported();
    for i := 0 to |edges|
      invariant Reported(edges[..i], seen, conflicts)
    {
      var p, polarity := PropositionOf(edges[i]), Polarity(edges[i]);
      var mask: bv8 := if p in seen then seen[p] else 0;
      assert edges[..i + 1][..i] == edges[..i];
      ReportedStep(edges[..i + 1], seen, conflicts, p, mask, polarity);
      conflicts := conflicts + if mask != 0 && mask & polarity == 0 then [Message(p)] else [];
      seen := seen[p := mask | polarity];
    }
    assert edges[..|edges|] == edges;
    ReportedAll(edges, seen, conflicts);
    MessagesTell(edges);
  }
}
