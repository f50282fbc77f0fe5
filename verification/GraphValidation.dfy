/**
 The validators of a graph accept exactly what its constructors build: a node up to white space around
 its name, an edge source by source, and a source graph when it is all of one scope and one memory with
 every endpoint among its nodes.
 */
module GraphValidation {
  import opened Wrappers
  import opened GraphModel

  /** What NewNode builds from a node's own fields. */
  function Rebuilt(cs: Casing, n: GraphNode): Result<GraphNode, string> {
    NewNode(cs, n.tenant, n.user, n.kind, n.name, n.confidence, n.createdAt)
  }

  lemma LabelTrimmed(kind: string)
    requires kind in NODE_LABELS
    ensures Trim(kind) == kind
  {
    assert !IsSpace(kind[0]) && !IsSpace(kind[|kind| - 1]);
  }

  lemma RelationTrimmed(relation: string)
    requires relation in RELATIONSHIP_TYPES
    ensures Trim(relation) == relation
  {
    assert !IsSpace(relation[0]) && !IsSpace(relation[|relation| - 1]);
  }

  /** A node is valid if and only if its label is bare and its other fields are those the constructor gives it. */
  lemma NodeValidIff(cs: Casing, n: GraphNode)
    ensures ValidNode(cs, n) <==>
              (n.kind in ["Person", "Project", "Technology", "Organization", "Entity", "Concept"] && Rebuilt(cs, n) == Success(n.(name := Trim(n.name))))
  {
    if n.kind in NODE_LABELS {
      LabelTrimmed(n.kind);
      KeyParts(n.key, n.kind, n.canonicalName);
    }
  }

  lemma KeyParts(key: string, kind: string, name: string)
    ensures key == kind + ":" + name <==>
              (StripPrefix(key, kind).Some? && StripPrefix(StripPrefix(key, kind).value, ":") == Some(name))
  {
    if kind <= key {
      assert key == kind + key[|kind|..];
      var rest := key[|kind|..];
      if ":" <= rest {
        assert rest == ":" + rest[1..];
      }
    }
    if key == kind + ":" + name {
      assert key[|kind|..] == ":" + name && (":" + name)[1..] == name;
    }
  }

  /** Capitals and the underscore are upper case already. */
  ghost predicate KeepsCapitals(cs: Casing) {
    forall c: char :: 'A' <= c <= 'Z' || c == '_' ==> cs.upper(c) == [c]
  }

  predicate Capitals(s: string) {
    forall i :: 0 <= i < |s| ==> 'A' <= s[i] <= 'Z' || s[i] == '_'
  }

  lemma {:induction false} UpperCapitals(cs: Casing, s: string)
    requires KeepsCapitals(cs) && Capitals(s)
    ensures MapChars(s, cs.upper) == s
  {
    if s != [] {
      UpperCapitals(cs, s[..|s| - 1]);
      assert s == s[..|s| - 1] + [s[|s| - 1]];
    }
  }

  /** What NewEdge builds for one source from an edge's own fields. */
  function RebuiltFor(cs: Casing, e: GraphEdge, source: string): Result<GraphEdge, string> {
    NewEdge(cs, e.tenant, e.user, e.fromKey, e.relation, e.toKey, e.confidence, source, e.createdAt)
  }

  /** An edge is valid if and only if it has a source and the constructor gives it back for each. */
  lemma EdgeValidIff(cs: Casing, e: GraphEdge)
    requires KeepsCapitals(cs)
    ensures ValidEdge(e) <==>
              (e.relation in RELATIONSHIP_TYPES && e.sources != []
               && forall i :: 0 <= i < |e.sources| ==> RebuiltFor(cs, e, e.sources[i]) == Success(e.(sources := [e.sources[i]], lastConfirmed := e.createdAt)))
  {
    hide ValidComponent, Trim, MapChars;
    if e.relation in RELATIONSHIP_TYPES {
      RelationTrimmed(e.relation);
      assert Capitals(e.relation);
      UpperCapitals(cs, e.relation);
    }
    if e.sources != [] && RebuiltFor(cs, e, e.sources[0]).Success? {
      assert ValidComponent(e.tenant);
    }
  }

  /** The graph of one memory in one scope: every node and edge valid and theirs, every endpoint present. */
  ghost predicate OwnGraph(cs: Casing, tenant: string, user: string, memory: string, nodes: seq<GraphNode>, edges: seq<GraphEdge>) {
    && (forall n :: n in nodes ==> n.tenant == tenant && n.user == user && ValidNode(cs, n))
    && (forall e :: e in edges ==> e.tenant == tenant && e.user == user && ValidEdge(e) && |e.sources| == 1 && e.sources[0] == memory)
    && (forall e :: e in edges ==> (exists n :: n in nodes && n.key == e.fromKey) && (exists n :: n in nodes && n.key == e.toKey))
  }

  lemma KeyHeld(nodes: seq<GraphNode>, key: string)
    ensures HasKey(nodes, key) <==> exists n :: n in nodes && n.key == key
  {
    if n :| n in nodes && n.key == key {
      var i :| 0 <= i < |nodes| && nodes[i] == n;
    }
  }

  lemma SourceGraphIff(cs: Casing, tenant: string, user: string, memory: string, nodes: seq<GraphNode>, edges: seq<GraphEdge>)
    ensures ValidSourceGraph(cs, tenant, user, memory, nodes, edges) <==>
              (ValidComponent(tenant) && ValidComponent(user) && ValidComponent(memory) && OwnGraph(cs, tenant, user, memory, nodes, edges))
  {
    hide ValidComponent, ValidNode, ValidEdge, HasKey;
    forall key
      ensures HasKey(nodes, key) <==> exists n :: n in nodes && n.key == key
    {
      KeyHeld(nodes, key);
    }
  }
}
