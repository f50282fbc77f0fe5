/**
 Graph nodes, edges and hints: their constructors, and the validators a store applies before it
 writes. Letter casing is a parameter; white space is Unicode's White_Space property.
 */
module GraphModel {
  import opened Wrappers

  type Stamp = nat

  datatype Casing = Casing(lower: char -> string, upper: char -> string, isUpper: char -> bool)

  datatype GraphNode = GraphNode(
    tenant: string, user: string, kind: string, name: string, canonicalName: string, key: string,
    confidence: real, createdAt: Stamp)

  datatype GraphEdge = GraphEdge(
    tenant: string, user: string, fromKey: string, relation: string, toKey: string, confidence: real,
    sources: seq<string>, createdAt: Stamp, lastConfirmed: Stamp)

  datatype GraphHint = GraphHint(
    fromKind: string, fromName: string, relation: string, toKind: string, toName: string, confidence: real)

  const NODE_LABELS := ["Person", "Project", "Technology", "Organization", "Entity", "Concept"]

  const RELATIONSHIP_TYPES := [
    "WORKS_ON", "USES", "OWNS", "DECIDED", "RELATED_TO", "DEPENDS_ON",
    "NOT_WORKS_ON", "NOT_USES", "NOT_OWNS", "NOT_DECIDED", "NOT_RELATED_TO", "NOT_DEPENDS_ON"]

  // ---- Text ----

  predicate IsSpace(c: char) {
    || '\U{9}' <= c <= '\U{D}' || c == ' ' || c == '\U{85}' || c == '\U{A0}' || c == '\U{1680}'
    || '\U{2000}' <= c <= '\U{200A}' || c == '\U{2028}' || c == '\U{2029}' || c == '\U{202F}'
    || c == '\U{205F}' || c == '\U{3000}'
  }

  predicate IsControl(c: char) {
    c < ' ' || '\U{7F}' <= c <= '\U{9F}'
  }

  function TrimStart(s: string): (r: string)
    ensures r != [] ==> !IsSpace(r[0])
    ensures |r| <= |s|
  {
    if s != [] && IsSpace(s[0]) then TrimStart(s[1..]) else s
  }

  function TrimEnd(s: string): (r: string)
    ensures r != [] ==> !IsSpace(r[|r| - 1])
    ensures r <= s
  {
    if s != [] && IsSpace(s[|s| - 1]) then TrimEnd(s[..|s| - 1]) else s
  }

  function Trim(s: string): string {
    TrimEnd(TrimStart(s))
  }

  /** The length of the word a text starts with. */
  function WordLength(s: string): (n: nat)
    ensures n <= |s| && (s != [] && !IsSpace(s[0]) ==> n > 0)
  {
    if s == [] || IsSpace(s[0]) then 0 else 1 + WordLength(s[1..])
  }

  /** The maximal runs of characters that are not white space. */
  function Words(s: string): seq<string>
    decreases |s|
  {
    var t := TrimStart(s);
    if t == [] then [] else [t[..WordLength(t)]] + Words(t[WordLength(t)..])
  }

  function MapChars(s: string, f: char -> string): string {
    if s == [] then [] else MapChars(s[..|s| - 1], f) + f(s[|s| - 1])
  }

  function Joined(words: seq<string>, cs: Casing): string {
    if words == [] then []
    else
      var n := |words| - 1;
      Joined(words[..n], cs) + (if n > 0 then "_" else "") + MapChars(words[n], cs.lower)
  }

  function Canonical(name: string, cs: Casing): string {
    Joined(Words(name), cs)
  }

  method Canonicalize(name: string, cs: Casing) returns (canonical: string)
    ensures canonical == Canonical(name, cs)
  {
    canonical := "";
    var words := Words(name);
    for index := 0 to |words|
      invariant canonical == Joined(words[..index], cs)
    {
      ghost var before := canonical;
      if index > 0 {
        canonical := canonical + "_";
      }
      ghost var separated := canonical;
      for k := 0 to |words[index]|
        invariant canonical == separated + MapChars(words[index][..k], cs.lower)
      {
        assert words[index][..k + 1][..k] == words[index][..k];
        canonical := canonical + cs.lower(words[index][k]);
      }
      assert words[index][..|words[index]|] == words[index];
      assert words[..index + 1][..index] == words[..index];
    }
    assert words[..|words|] == words;
  }

  lemma {:induction false} TrimStartTwice(s: string)
    ensures TrimStart(TrimStart(s)) == TrimStart(s)
  {
    if s != [] && IsSpace(s[0]) {
      TrimStartTwice(s[1..]);
    }
  }

  lemma {:induction false} TrimStartAppend(s: string, c: char)
    requires TrimStart(s) != []
    ensures TrimStart(s + [c]) == TrimStart(s) + [c]
  {
    if IsSpace(s[0]) {
      assert (s + [c])[1..] == s[1..] + [c];
      TrimStartAppend(s[1..], c);
    }
  }

  lemma {:induction false} TrimStartBlank(s: string, c: char)
    requires TrimStart(s) == [] && IsSpace(c)
    ensures TrimStart(s + [c]) == []
  {
    if s == [] {
      assert TrimStart([c][1..]) == [];
    } else {
      assert (s + [c])[1..] == s[1..] + [c];
      TrimStartBlank(s[1..], c);
    }
  }

  lemma {:induction false} WordLengthAppend(s: string, c: char)
    requires IsSpace(c)
    ensures WordLength(s + [c]) == WordLength(s)
  {
    if s != [] && !IsSpace(s[0]) {
      assert (s + [c])[1..] == s[1..] + [c];
      WordLengthAppend(s[1..], c);
    }
  }

  lemma {:induction false} WordsAppendSpace(s: string, c: char)
    requires IsSpace(c)
    ensures Words(s + [c]) == Words(s)
    decreases |s|
  {
    var t := TrimStart(s);
    if t == [] {
      TrimStartBlank(s, c);
    } else {
      var n := WordLength(t);
      TrimStartAppend(s, c);
      WordLengthAppend(t, c);
      assert (t + [c])[..n] == t[..n];
      assert (t + [c])[n..] == t[n..] + [c];
      WordsAppendSpace(t[n..], c);
    }
  }

  lemma {:induction false} WordsTrimEnd(s: string)
    ensures Words(TrimEnd(s)) == Words(s)
  {
    if s != [] && IsSpace(s[|s| - 1]) {
      WordsTrimEnd(s[..|s| - 1]);
      WordsAppendSpace(s[..|s| - 1], s[|s| - 1]);
      assert s == s[..|s| - 1] + [s[|s| - 1]];
    }
  }

  /** Outer white space does not reach the canonical name. */
  lemma CanonicalIgnoresTrim(name: string, cs: Casing)
    ensures Canonical(Trim(name), cs) == Canonical(name, cs)
  {
    WordsTrimEnd(TrimStart(name));
    TrimStartTwice(name);
  }

  lemma TrimTwice(s: string)
    ensures Trim(Trim(s)) == Trim(s)
  {
    var t := Trim(s);
    if t != [] {
      assert t[0] == TrimStart(s)[0];
    }
  }

  function StripPrefix(s: string, prefix: string): Option<string> {
    if prefix <= s then Some(s[|prefix|..]) else None
  }

  // ---- Constructors ----

  predicate ValidComponent(value: string) {
    Trim(value) != [] && forall i :: 0 <= i < |value| ==> value[i] != '/' && value[i] != '\\' && !IsControl(value[i])
  }

  predicate ValidScore(score: real) {
    0.0 <= score <= 1.0
  }

  function NewNode(cs: Casing, tenant: string, user: string, kind: string, name: string, confidence: real, now: Stamp): Result<GraphNode, string> {
    if !ValidScore(confidence) then Failure("confidence must be within 0..=1")
    else if !ValidComponent(tenant) || !ValidComponent(user) then Failure("invalid scope")
    else if Trim(kind) !in NODE_LABELS then Failure("unsupported graph node label")
    else if Trim(name) == [] then Failure("graph entity name is required")
    else
      Success(GraphNode(tenant, user, Trim(kind), Trim(name), Canonical(name, cs), Trim(kind) + ":" + Canonical(name, cs), confidence, now))
  }

  function NewEdge(cs: Casing, tenant: string, user: string, fromKey: string, relation: string, toKey: string,
                   confidence: real, memory: string, now: Stamp): Result<GraphEdge, string> {
    var verb := MapChars(Trim(relation), cs.upper);
    if !ValidScore(confidence) then Failure("confidence must be within 0..=1")
    else if !ValidComponent(tenant) || !ValidComponent(user) || !ValidComponent(memory) then Failure("invalid scope")
    else if Trim(fromKey) == [] || Trim(toKey) == [] || verb !in RELATIONSHIP_TYPES then Failure("invalid graph endpoints or relationship type")
    else Success(GraphEdge(tenant, user, fromKey, verb, toKey, confidence, [memory], now, now))
  }

  // ---- Validators ----

  predicate ValidNode(cs: Casing, n: GraphNode) {
    && ValidComponent(n.tenant) && ValidComponent(n.user) && ValidScore(n.confidence)
    && n.kind in NODE_LABELS && Trim(n.name) != [] && n.canonicalName == Canonical(n.name, cs)
    && StripPrefix(n.key, n.kind).Some?
    && StripPrefix(StripPrefix(n.key, n.kind).value, ":") == Some(n.canonicalName)
  }

  predicate ValidEdge(e: GraphEdge) {
    && ValidComponent(e.tenant) && ValidComponent(e.user) && ValidScore(e.confidence)
    && e.relation in RELATIONSHIP_TYPES && Trim(e.fromKey) != [] && Trim(e.toKey) != [] && e.sources != []
    && forall i :: 0 <= i < |e.sources| ==> ValidComponent(e.sources[i])
  }

  predicate HasKey(nodes: seq<GraphNode>, key: string) {
    exists i :: 0 <= i < |nodes| && nodes[i].key == key
  }

  predicate ValidSourceGraph(cs: Casing, tenant: string, user: string, memory: string, nodes: seq<GraphNode>, edges: seq<GraphEdge>) {
    && ValidComponent(tenant) && ValidComponent(user) && ValidComponent(memory)
    && (forall i :: 0 <= i < |nodes| ==> ValidNode(cs, nodes[i]) && nodes[i].tenant == tenant && nodes[i].user == user)
    && forall i :: 0 <= i < |edges| ==>
         && ValidEdge(edges[i]) && edges[i].tenant == tenant && edges[i].user == user && edges[i].sources == [memory]
         && HasKey(nodes, edges[i].fromKey) && HasKey(nodes, edges[i].toKey)
  }

  lemma LabelStartsVisible(kind: string, suffix: string)
    requires kind in NODE_LABELS
    ensures Trim(kind + suffix) != []
  {
    assert !IsSpace((kind + suffix)[0]) by {
      assert kind[0] in {'P', 'T', 'O', 'E', 'C'};
    }
    TrimEndKeepsHead(kind + suffix);
  }

  lemma {:induction false} TrimEndKeepsHead(s: string)
    requires s != [] && !IsSpace(s[0])
    ensures TrimEnd(s) != []
  {
    if IsSpace(s[|s| - 1]) {
      TrimEndKeepsHead(s[..|s| - 1]);
    }
  }

  /** A constructed node passes the validator, and its key can be an edge's endpoint. */
  lemma NewNodeValid(cs: Casing, tenant: string, user: string, kind: string, name: string, confidence: real, now: Stamp)
    requires NewNode(cs, tenant, user, kind, name, confidence, now).Success?
    ensures var n := NewNode(cs, tenant, user, kind, name, confidence, now).value;
            ValidNode(cs, n) && Trim(n.key) != []
  {
    var n := NewNode(cs, tenant, user, kind, name, confidence, now).value;
    TrimTwice(name);
    CanonicalIgnoresTrim(name, cs);
    assert n.key == n.kind + (":" + n.canonicalName);
    assert n.key[|n.kind|..] == ":" + n.canonicalName;
    assert (":" + n.canonicalName)[1..] == n.canonicalName;
    LabelStartsVisible(n.kind, ":" + n.canonicalName);
  }

  lemma NewEdgeValid(cs: Casing, tenant: string, user: string, fromKey: string, relation: string, toKey: string,
                     confidence: real, memory: string, now: Stamp)
    requires NewEdge(cs, tenant, user, fromKey, relation, toKey, confidence, memory, now).Success?
    ensures ValidEdge(NewEdge(cs, tenant, user, fromKey, relation, toKey, confidence, memory, now).value)
  {
  }

  /** Equal keys mean equal labels and canonical names: a valid node's key identifies it in its scope. */
  lemma KeyIdentifies(cs: Casing, a: GraphNode, b: GraphNode)
    requires ValidNode(cs, a) && ValidNode(cs, b) && a.key == b.key
    ensures a.kind == b.kind && a.canonicalName == b.canonicalName
  {
    assert a.key[|a.kind|] == ':' && b.key[|b.kind|] == ':';
    NoColon(a.kind);
    NoColon(b.kind);
    assert a.kind == a.key[..|a.kind|] && b.kind == b.key[..|b.kind|];
  }

  lemma NoColon(kind: string)
    requires kind in NODE_LABELS
    ensures ':' !in kind
  {
  }
}
