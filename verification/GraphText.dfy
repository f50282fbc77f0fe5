/**
 What the text functions of the graph compute, by the laws that fix them: trimming, splitting into words,
 canonical names, containment, and what the heuristics read off a record.
 */
module GraphText {
  import opened GraphModel
  import opened Graphify

  // ---- Characters ----

  /** Unicode's White_Space. */
  lemma SpacesAre(c: char)
    ensures IsSpace(c) <==>
              c as int in {9, 10, 11, 12, 13, 32, 133, 160, 5760, 8192, 8193, 8194, 8195, 8196, 8197, 8198, 8199, 8200, 8201, 8202, 8232, 8233, 8239, 8287, 12288}
  {
  }

  /** Unicode's control characters. */
  lemma ControlsAre(c: char)
    ensures IsControl(c) <==> 0 <= c as int <= 31 || 127 <= c as int <= 159
  {
  }

  predicate Blank(s: string) {
    forall i :: 0 <= i < |s| ==> IsSpace(s[i])
  }

  predicate Solid(s: string) {
    forall i :: 0 <= i < |s| ==> !IsSpace(s[i])
  }

  // ---- Trimming ----

  lemma {:induction false} TrimStartMeans(s: string)
    ensures var t := TrimStart(s); |t| <= |s| && s[|s| - |t|..] == t && Blank(s[..|s| - |t|])
  {
    if s != [] && IsSpace(s[0]) {
      TrimStartMeans(s[1..]);
      var t := TrimStart(s);
      var k := |s| - |t|;
      assert s[k..] == s[1..][k - 1..];
      forall i | 0 <= i < k
        ensures IsSpace(s[..k][i])
      {
        if i > 0 {
          assert s[..k][i] == s[1..][..k - 1][i - 1];
        }
      }
    }
  }

  lemma {:induction false} TrimEndMeans(s: string)
    ensures var t := TrimEnd(s); |t| <= |s| && s[..|t|] == t && Blank(s[|t|..])
  {
    if s != [] && IsSpace(s[|s| - 1]) {
      var rest := s[..|s| - 1];
      TrimEndMeans(rest);
      var t := TrimEnd(s);
      assert s[..|t|] == rest[..|t|];
      forall i | 0 <= i < |s| - |t|
        ensures IsSpace(s[|t|..][i])
      {
        if i < |rest| - |t| {
          assert s[|t|..][i] == rest[|t|..][i];
        }
      }
    }
  }

  /** A piece of the text with nothing but white space around it and none at its ends. */
  predicate Core(s: string, i: nat, j: nat) {
    i <= j <= |s| && Blank(s[..i]) && Blank(s[j..]) && (i < j ==> !IsSpace(s[i]) && !IsSpace(s[j - 1]))
  }

  /** Trimming leaves the text between outer white space. */
  lemma TrimMeans(s: string)
    ensures exists i: nat, j: nat :: Core(s, i, j) && Trim(s) == s[i..j]
  {
    var t := TrimStart(s);
    var i := |s| - |t|;
    var j := i + |Trim(s)|;
    TrimStartMeans(s);
    TrimEndMeans(t);
    assert Trim(s) == s[i..j];
    assert s[j..] == t[|Trim(s)|..];
    if i < j {
      assert s[i] == t[0] && s[j - 1] == Trim(s)[|Trim(s)| - 1];
    }
    assert Core(s, i, j);
  }

  lemma AroundCore(s: string, i: nat, j: nat, k: nat)
    requires Core(s, i, j) && k < |s|
    ensures k < i || k >= j ==> IsSpace(s[k])
  {
    if k < i {
      assert s[..i][k] == s[k];
    } else if k >= j {
      assert s[j..][k - j] == s[k];
    }
  }

  /** A component is valid if and only if something of it is visible and it has no slash, backslash or control character. */
  lemma ValidComponentMeans(value: string)
    ensures ValidComponent(value) <==>
              ((exists i :: 0 <= i < |value| && !IsSpace(value[i])) && forall i :: 0 <= i < |value| ==> value[i] !in {'/', '\\'} && !IsControl(value[i]))
  {
    TrimMeans(value);
    var i: nat, j: nat :| Core(value, i, j) && Trim(value) == value[i..j];
    forall k | 0 <= k < |value|
      ensures k < i || k >= j ==> IsSpace(value[k])
    {
      AroundCore(value, i, j, k);
    }
    hide IsSpace, IsControl, Trim;
  }

  // ---- Words and canonical names ----

  lemma {:induction false} SolidWord(s: string)
    requires Solid(s)
    ensures WordLength(s) == |s|
  {
    if s != [] {
      assert Solid(s[1..]) by {
        assert forall i :: 0 <= i < |s| - 1 ==> s[1..][i] == s[i + 1];
      }
      SolidWord(s[1..]);
    }
  }

  /** A text without white space is one word. */
  lemma WordsOne(s: string)
    requires s != [] && Solid(s)
    ensures Words(s) == [s]
  {
    SolidWord(s);
    assert TrimStart(s) == s && s[|s|..] == [] && s[..|s|] == s;
    assert Words([]) == [];
  }

  lemma {:induction false} WordBeforeSpace(a: string, c: char, b: string)
    requires IsSpace(c)
    ensures WordLength(a + [c] + b) == WordLength(a)
  {
    if a == [] {
      assert (a + [c] + b)[0] == c;
    } else if !IsSpace(a[0]) {
      assert (a + [c] + b)[1..] == a[1..] + [c] + b;
      WordBeforeSpace(a[1..], c, b);
    }
  }

  lemma {:induction false} TrimBeforeSpace(a: string, c: char, b: string)
    requires IsSpace(c)
    ensures TrimStart(a + [c] + b) == if TrimStart(a) == [] then TrimStart(b) else TrimStart(a) + [c] + b
  {
    if a == [] {
      assert (a + [c] + b)[1..] == b;
    } else if IsSpace(a[0]) {
      assert (a + [c] + b)[1..] == a[1..] + [c] + b;
      TrimBeforeSpace(a[1..], c, b);
    }
  }

  lemma WordsOfTrimmed(s: string)
    ensures Words(TrimStart(s)) == Words(s)
  {
    TrimStartTwice(s);
  }

  /** White space separates words, and nothing else does. */
  lemma {:induction false} WordsSplit(a: string, c: char, b: string)
    requires IsSpace(c)
    ensures Words(a + [c] + b) == Words(a) + Words(b)
    decreases |a|
  {
    var s, t := a + [c] + b, TrimStart(a);
    TrimBeforeSpace(a, c, b);
    if t == [] {
      WordsOfTrimmed(b);
      WordsOfTrimmed(s);
      assert Words(a) + Words(b) == Words(b);
    } else {
      var n := WordLength(t);
      WordBeforeSpace(t, c, b);
      assert (t + [c] + b)[..n] == t[..n] && (t + [c] + b)[n..] == t[n..] + [c] + b;
      WordsSplit(t[n..], c, b);
      assert Words(a) == [t[..n]] + Words(t[n..]);
      assert [t[..n]] + (Words(t[n..]) + Words(b)) == Words(a) + Words(b);
    }
  }

  lemma {:induction false} MapCharsSplit(a: string, b: string, f: char -> string)
    ensures MapChars(a + b, f) == MapChars(a, f) + MapChars(b, f)
    decreases |b|
  {
    if b == [] {
      assert a + b == a;
    } else {
      var n := |b| - 1;
      MapCharsSplit(a, b[..n], f);
      assert (a + b)[..|a + b| - 1] == a + b[..n];
    }
  }

  /** Mapping a text maps its characters one after another. */
  lemma MapCharsMeans(a: string, c: char, b: string, f: char -> string)
    ensures MapChars([], f) == [] && MapChars([c], f) == f(c)
    ensures MapChars(a + b, f) == MapChars(a, f) + MapChars(b, f)
  {
    MapCharsSplit(a, b, f);
    assert MapChars([c][..0], f) == [];
  }

  lemma {:induction false} JoinedSplit(a: seq<string>, b: seq<string>, cs: Casing)
    requires a != [] && b != []
    ensures Joined(a + b, cs) == Joined(a, cs) + "_" + Joined(b, cs)
    decreases |b|
  {
    var n := |b| - 1;
    assert (a + b)[..|a + b| - 1] == a + b[..n] && (a + b)[|a + b| - 1] == b[n];
    if n == 0 {
      assert a + b[..n] == a && Joined(b[..n], cs) == [];
    } else {
      JoinedSplit(a, b[..n], cs);
    }
  }

  /**
   Canonical names by three laws: that of a text without white space is the text lowercased; white space
   joins the names of what is around it with an underscore; and blank text adds nothing.
   */
  lemma CanonicalMeans(a: string, c: char, b: string, cs: Casing)
    requires IsSpace(c)
    ensures a != [] && Solid(a) ==> Canonical(a, cs) == MapChars(a, cs.lower)
    ensures Blank(a) ==> Words(a) == [] && Canonical(a, cs) == [] && Canonical(a + [c] + b, cs) == Canonical(b, cs) && Canonical(b + [c] + a, cs) == Canonical(b, cs)
    ensures !Blank(a) && !Blank(b) ==> Canonical(a + [c] + b, cs) == Canonical(a, cs) + "_" + Canonical(b, cs)
  {
    WordsSplit(a, c, b);
    WordsSplit(b, c, a);
    BlankWords(a);
    BlankWords(b);
    if a != [] && Solid(a) {
      WordsOne(a);
      assert [a][..0] == [];
    }
    if Blank(a) {
      assert Words(a) + Words(b) == Words(b) == Words(b) + Words(a);
    } else if !Blank(b) {
      JoinedSplit(Words(a), Words(b), cs);
    }
  }

  lemma BlankWords(s: string)
    ensures Words(s) == [] <==> Blank(s)
  {
    TrimStartMeans(s);
    var t := TrimStart(s);
    if t != [] {
      assert s[|s| - |t|] == t[0];
    } else {
      assert s[..|s|] == s;
    }
  }

  // ---- Heuristics ----

  predicate OccursAt(s: string, sub: string, i: nat) {
    i + |sub| <= |s| && s[i..i + |sub|] == sub
  }

  /** Somewhere in the text. */
  predicate Occurs(s: string, sub: string) {
    exists i :: 0 <= i <= |s| && OccursAt(s, sub, i)
  }

  lemma OccursLater(s: string, sub: string, i: nat)
    requires s != []
    ensures OccursAt(s, sub, i + 1) <==> OccursAt(s[1..], sub, i)
  {
    if i + 1 + |sub| <= |s| {
      assert s[i + 1..i + 1 + |sub|] == s[1..][i..i + |sub|];
    }
  }

  lemma OccursFirst(s: string, sub: string)
    ensures OccursAt(s, sub, 0) <==> sub <= s
  {
  }

  lemma {:induction false} ContainsMeans(s: string, sub: string)
    ensures Contains(s, sub) <==> Occurs(s, sub)
  {
    OccursFirst(s, sub);
    hide OccursAt;
    if s != [] {
      ContainsMeans(s[1..], sub);
      if i :| 0 <= i <= |s| && OccursAt(s, sub, i) {
        if i > 0 {
          OccursLater(s, sub, i - 1);
        }
      }
      if i :| 0 <= i <= |s[1..]| && OccursAt(s[1..], sub, i) {
        OccursLater(s, sub, i);
      }
    }
  }

  predicate Mentions(cs: Casing, text: string, word: string) {
    Occurs(MapChars(text, cs.lower), word)
  }

  /** Texts that mention one of four stores in any casing are technologies; of the others, those that start in upper case are entities. */
  lemma InferLabelMeans(cs: Casing, entity: string)
    ensures InferLabel(cs, entity) == "Technology" <==>
              Mentions(cs, entity, "postgres") || Mentions(cs, entity, "redis") || Mentions(cs, entity, "neo4j") || Mentions(cs, entity, "qdrant")
    ensures InferLabel(cs, entity) == "Entity" <==> InferLabel(cs, entity) != "Technology" && entity != [] && cs.isUpper(entity[0])
    ensures InferLabel(cs, entity) in {"Technology", "Entity", "Concept"}
  {
    var lowered := MapChars(entity, cs.lower);
    ContainsMeans(lowered, "postgres");
    ContainsMeans(lowered, "redis");
    ContainsMeans(lowered, "neo4j");
    ContainsMeans(lowered, "qdrant");
    assert "Technology"[0] != "Entity"[0] && "Entity"[0] != "Concept"[0] && "Technology"[0] != "Concept"[0];
    hide Contains, Occurs, MapChars;
  }

  /** Use goes before ownership, ownership before decision, in any casing. */
  lemma HeuristicRelationMeans(cs: Casing, content: string)
    ensures var relation := HeuristicRelation(cs, content);
            var uses, owns := Mentions(cs, content, " use ") || Mentions(cs, content, " using "), Mentions(cs, content, " owns ") || Mentions(cs, content, " owner ");
            var decides := Mentions(cs, content, " decide") || Mentions(cs, content, " chose ");
            && (uses ==> relation == "USES") && (!uses && owns ==> relation == "OWNS")
            && (!uses && !owns && decides ==> relation == "DECIDED") && (!uses && !owns && !decides ==> relation == "RELATED_TO")
  {
    var lowered := MapChars(content, cs.lower);
    ContainsMeans(lowered, " use ");
    ContainsMeans(lowered, " using ");
    ContainsMeans(lowered, " owns ");
    ContainsMeans(lowered, " owner ");
    ContainsMeans(lowered, " decide");
    ContainsMeans(lowered, " chose ");
    hide Contains, Occurs, MapChars;
  }

  /** Every relation has its negation, and is of one of six kinds. */
  lemma RelationsPaired()
    ensures |RELATIONSHIP_TYPES| == 12 && forall i :: 0 <= i < 6 ==> RELATIONSHIP_TYPES[i + 6] == "NOT_" + RELATIONSHIP_TYPES[i]
    ensures RELATIONSHIP_TYPES[..6] == ["WORKS_ON", "USES", "OWNS", "DECIDED", "RELATED_TO", "DEPENDS_ON"]
  {
  }
}
