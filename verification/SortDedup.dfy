/**
 Sorting by key with the best score first, then dropping every element whose key equals its
 predecessor's. Strings compare character by character, as byte order does on UTF-8.
 */
module SortDedup {
  import opened Wrappers

  type Key = (string, string, string)

  predicate StringLeq(a: string, b: string) {
    if a == [] then true
    else if b == [] then false
    else a[0] < b[0] || (a[0] == b[0] && StringLeq(a[1..], b[1..]))
  }

  predicate KeyLeq(a: Key, b: Key) {
    if a.0 != b.0 then StringLeq(a.0, b.0)
    else if a.1 != b.1 then StringLeq(a.1, b.1)
    else StringLeq(a.2, b.2)
  }

  datatype Ranked<T> = Ranked(key: Key, score: real, item: T)

  /** Key ascending, then score descending. */
  predicate Before<T>(a: Ranked<T>, b: Ranked<T>) {
    if a.key != b.key then KeyLeq(a.key, b.key) else a.score >= b.score
  }

  predicate Sorted<T>(s: seq<Ranked<T>>) {
    forall i, j :: 0 <= i < j < |s| ==> Before(s[i], s[j])
  }

  function Insert<T>(s: seq<Ranked<T>>, x: Ranked<T>): seq<Ranked<T>> {
    if s == [] || Before(s[|s| - 1], x) then s + [x] else Insert(s[..|s| - 1], x) + [s[|s| - 1]]
  }

  /** The stable sort: equal elements keep their order. */
  function Sort<T>(s: seq<Ranked<T>>): seq<Ranked<T>> {
    if s == [] then [] else Insert(Sort(s[..|s| - 1]), s[|s| - 1])
  }

  function Dedup<T>(s: seq<Ranked<T>>): seq<Ranked<T>> {
    if s == [] then []
    else
      var kept := Dedup(s[..|s| - 1]);
      if kept != [] && kept[|kept| - 1].key == s[|s| - 1].key then kept else kept + [s[|s| - 1]]
  }

  function SortDedup<T>(s: seq<Ranked<T>>): seq<Ranked<T>> {
    Dedup(Sort(s))
  }

  // ---- The order ----

  lemma {:induction false} StringTotal(a: string, b: string)
    ensures StringLeq(a, b) || StringLeq(b, a)
    ensures StringLeq(a, b) && StringLeq(b, a) ==> a == b
  {
    if a != [] && b != [] {
      StringTotal(a[1..], b[1..]);
      if StringLeq(a, b) && StringLeq(b, a) {
        assert a == [a[0]] + a[1..] && b == [b[0]] + b[1..];
      }
    }
  }

  lemma {:induction false} StringTransitive(a: string, b: string, c: string)
    requires StringLeq(a, b) && StringLeq(b, c)
    ensures StringLeq(a, c)
  {
    if a != [] && a[0] == b[0] == c[0] {
      StringTransitive(a[1..], b[1..], c[1..]);
    }
  }

  lemma KeyTotal(a: Key, b: Key)
    ensures KeyLeq(a, b) || KeyLeq(b, a)
    ensures KeyLeq(a, b) && KeyLeq(b, a) ==> a == b
  {
    StringTotal(a.0, b.0);
    StringTotal(a.1, b.1);
    StringTotal(a.2, b.2);
  }

  lemma KeyTransitive(a: Key, b: Key, c: Key)
    requires KeyLeq(a, b) && KeyLeq(b, c)
    ensures KeyLeq(a, c)
  {
    if a.0 != b.0 && b.0 != c.0 {
      StringTransitive(a.0, b.0, c.0);
      StringTotal(a.0, b.0);
    } else if a.0 == b.0 == c.0 {
      if a.1 != b.1 && b.1 != c.1 {
        StringTransitive(a.1, b.1, c.1);
        StringTotal(a.1, b.1);
      } else if a.1 == b.1 == c.1 {
        StringTransitive(a.2, b.2, c.2);
      }
    }
  }

  lemma BeforeTotal<T>(a: Ranked<T>, b: Ranked<T>)
    ensures Before(a, b) || Before(b, a)
  {
    KeyTotal(a.key, b.key);
  }

  lemma BeforeTransitive<T>(a: Ranked<T>, b: Ranked<T>, c: Ranked<T>)
    requires Before(a, b) && Before(b, c)
    ensures Before(a, c)
  {
    if a.key != b.key && b.key != c.key {
      KeyTransitive(a.key, b.key, c.key);
      KeyTotal(a.key, b.key);
    }
  }

  // ---- Sort ----

  lemma {:induction false} InsertSorts<T>(s: seq<Ranked<T>>, x: Ranked<T>)
    requires Sorted(s)
    ensures Sorted(Insert(s, x)) && multiset(Insert(s, x)) == multiset(s) + multiset{x}
  {
    if s != [] {
      var n := |s| - 1;
      assert s == s[..n] + [s[n]];
      if Before(s[n], x) {
        forall i | 0 <= i < |s|
          ensures Before(s[i], x)
        {
          if i < n {
            BeforeTransitive(s[i], s[n], x);
          }
        }
      } else {
        InsertSorts(s[..n], x);
        BeforeTotal(s[n], x);
        var inner := Insert(s[..n], x);
        forall y | y in inner
          ensures Before(y, s[n])
        {
          assert y in multiset(inner);
          assert y == x || y in s[..n];
        }
      }
    }
  }

  /** The sort yields an ordered permutation. */
  lemma {:induction false} SortSorts<T>(s: seq<Ranked<T>>)
    ensures Sorted(Sort(s)) && multiset(Sort(s)) == multiset(s)
  {
    if s != [] {
      var n := |s| - 1;
      SortSorts(s[..n]);
      InsertSorts(Sort(s[..n]), s[n]);
      assert s == s[..n] + [s[n]];
    }
  }

  // ---- Dedup ----

  predicate OncePerKey<T>(s: seq<Ranked<T>>) {
    forall i, j :: 0 <= i < j < |s| ==> s[i].key != s[j].key
  }

  predicate Covers<T>(kept: seq<Ranked<T>>, x: Ranked<T>) {
    exists i :: 0 <= i < |kept| && kept[i].key == x.key && kept[i].score >= x.score
  }

  predicate TakenFrom<T(==)>(kept: seq<Ranked<T>>, s: seq<Ranked<T>>) {
    forall i :: 0 <= i < |kept| ==> kept[i] in s
  }

  predicate AllCovered<T>(kept: seq<Ranked<T>>, s: seq<Ranked<T>>) {
    forall i :: 0 <= i < |s| ==> Covers(kept, s[i])
  }

  predicate LastKept<T>(kept: seq<Ranked<T>>, s: seq<Ranked<T>>) {
    s != [] ==> kept != [] && kept[|kept| - 1].key == s[|s| - 1].key
  }

  predicate Represents<T(==)>(kept: seq<Ranked<T>>, s: seq<Ranked<T>>) {
    OncePerKey(kept) && TakenFrom(kept, s) && AllCovered(kept, s) && LastKept(kept, s)
  }

  lemma {:induction false} DedupSorted<T>(s: seq<Ranked<T>>)
    requires Sorted(s)
    ensures Represents(Dedup(s), s)
  {
    if s != [] {
      var before := Dedup(s[..|s| - 1]);
      DedupSorted(s[..|s| - 1]);
      if before != [] && before[|before| - 1].key == s[|s| - 1].key {
        Dropped(s, before);
      } else {
        Retained(s, before);
      }
    }
  }

  lemma Dropped<T>(s: seq<Ranked<T>>, before: seq<Ranked<T>>)
    requires Sorted(s) && s != [] && Represents(before, s[..|s| - 1])
    requires before != [] && before[|before| - 1].key == s[|s| - 1].key
    ensures Represents(before, s)
  {
    LastCovers(s, before);
    forall i | 0 <= i < |s|
      ensures Covers(before, s[i])
    {
      if i < |s| - 1 {
        assert s[..|s| - 1][i] == s[i];
      }
    }
    forall i | 0 <= i < |before|
      ensures before[i] in s
    {
      assert before[i] in s[..|s| - 1];
    }
  }

  lemma Retained<T>(s: seq<Ranked<T>>, before: seq<Ranked<T>>)
    requires Sorted(s) && s != [] && Represents(before, s[..|s| - 1])
    requires before == [] || before[|before| - 1].key != s[|s| - 1].key
    ensures Represents(before + [s[|s| - 1]], s)
  {
    hide Sorted, AllCovered, Before;
    var n := |s| - 1;
    CoversMore(before, s);
    forall i | 0 <= i < |before|
      ensures before[i].key != s[n].key && before[i] in s
    {
      assert before[i] in s[..n];
      NotEarlier(s, before, i);
    }
    OneMoreKey(before, s[n]);
  }

  lemma OneMoreKey<T>(before: seq<Ranked<T>>, x: Ranked<T>)
    requires OncePerKey(before) && forall i :: 0 <= i < |before| ==> before[i].key != x.key
    ensures OncePerKey(before + [x])
  {
  }

  lemma CoversMore<T>(before: seq<Ranked<T>>, s: seq<Ranked<T>>)
    requires s != [] && AllCovered(before, s[..|s| - 1])
    ensures AllCovered(before + [s[|s| - 1]], s)
  {
    var n := |s| - 1;
    var kept := before + [s[n]];
    forall i | 0 <= i < |s|
      ensures Covers(kept, s[i])
    {
      if i < n {
        assert s[..n][i] == s[i];
        var j :| 0 <= j < |before| && before[j].key == s[i].key && before[j].score >= s[i].score;
        assert kept[j] == before[j];
      } else {
        assert kept[|before|] == s[n];
      }
    }
  }

  lemma LastCovers<T>(s: seq<Ranked<T>>, before: seq<Ranked<T>>)
    requires Sorted(s) && s != [] && before != []
    requires before[|before| - 1] in s[..|s| - 1] && before[|before| - 1].key == s[|s| - 1].key
    ensures Covers(before, s[|s| - 1])
  {
    var last := before[|before| - 1];
    var i :| 0 <= i < |s| - 1 && s[i] == last;
    assert Before(s[i], s[|s| - 1]);
  }

  /** A key that differs from its sorted predecessor's has not occurred before. */
  lemma NotEarlier<T>(s: seq<Ranked<T>>, before: seq<Ranked<T>>, i: nat)
    requires Sorted(s) && |s| > 0 && i < |before|
    requires before[i] in s[..|s| - 1]
    requires |s| > 1 && s[|s| - 2].key != s[|s| - 1].key
    ensures before[i].key != s[|s| - 1].key
  {
    var n := |s| - 1;
    var j :| 0 <= j < n && s[j] == before[i];
    if s[j].key == s[n].key {
      assert Before(s[n - 1], s[n]);
      if j < n - 1 {
        assert Before(s[j], s[n - 1]);
      }
      KeyTotal(s[n - 1].key, s[n].key);
    }
  }

  lemma SortKeepsElements<T>(s: seq<Ranked<T>>, x: Ranked<T>)
    ensures x in Sort(s) <==> x in s
  {
    SortSorts(s);
    assert x in multiset(Sort(s)) <==> x in multiset(s);
  }

  /**
   Exactly one element per key survives, it is one of the originals, and its score is the greatest of
   its group.
   */
  lemma OneBestPerKey<T>(s: seq<Ranked<T>>)
    ensures OncePerKey(SortDedup(s)) && TakenFrom(SortDedup(s), s) && AllCovered(SortDedup(s), s)
  {
    SortSorts(s);
    DedupSorted(Sort(s));
    var sorted, kept := Sort(s), SortDedup(s);
    forall i | 0 <= i < |kept|
      ensures kept[i] in s
    {
      SortKeepsElements(s, kept[i]);
    }
    forall i | 0 <= i < |s|
      ensures Covers(kept, s[i])
    {
      SortKeepsElements(s, s[i]);
      var j :| 0 <= j < |sorted| && sorted[j] == s[i];
    }
  }

  // ---- What order, and which of equals ----

  /** The texts are equal up to i, where the first goes on and is smaller, or ends. */
  predicate Parts(a: string, b: string, i: nat) {
    i <= |a| && i <= |b| && a[..i] == b[..i] && (i == |a| || (i < |b| && a[i] < b[i]))
  }

  /** Strings are ordered by the first place where they differ, and a prefix goes first. */
  lemma {:induction false} StringLeqMeans(a: string, b: string)
    ensures StringLeq(a, b) <==> exists i :: 0 <= i <= |a| && Parts(a, b, i)
  {
    if a == [] {
      assert Parts(a, b, 0);
    } else if b != [] {
      StringLeqMeans(a[1..], b[1..]);
      if a[0] == b[0] && StringLeq(a, b) {
        var i :| 0 <= i <= |a[1..]| && Parts(a[1..], b[1..], i);
        assert a[..i + 1] == [a[0]] + a[1..][..i] && b[..i + 1] == [b[0]] + b[1..][..i];
        assert Parts(a, b, i + 1);
      } else if a[0] < b[0] {
        assert Parts(a, b, 0);
      }
      if i :| 0 <= i <= |a| && Parts(a, b, i) {
        if i > 0 {
          assert a[..i][0] == b[..i][0];
          assert a[1..][..i - 1] == a[..i][1..] && b[1..][..i - 1] == b[..i][1..];
          assert Parts(a[1..], b[1..], i - 1);
        }
      }
    }
  }

  /** The first element with the key. */
  predicate FirstAt<T>(s: seq<Ranked<T>>, key: Key, i: nat) {
    i < |s| && s[i].key == key && forall j :: 0 <= j < i ==> s[j].key != key
  }

  /** The first of the best elements with the key. */
  predicate FirstBestAt<T>(s: seq<Ranked<T>>, key: Key, i: nat) {
    && i < |s| && s[i].key == key
    && (forall j :: 0 <= j < |s| && s[j].key == key ==> s[j].score <= s[i].score)
    && (forall j :: 0 <= j < i && s[j].key == key ==> s[j].score < s[i].score)
  }

  function First<T>(s: seq<Ranked<T>>, key: Key): Option<Ranked<T>> {
    if s == [] then None
    else
      var first := First(s[..|s| - 1], key);
      if first.None? && s[|s| - 1].key == key then Some(s[|s| - 1]) else first
  }

  function FirstBest<T>(s: seq<Ranked<T>>, key: Key): Option<Ranked<T>> {
    if s == [] then None
    else
      var best := FirstBest(s[..|s| - 1], key);
      if s[|s| - 1].key == key && (best.None? || s[|s| - 1].score > best.value.score) then Some(s[|s| - 1]) else best
  }

  predicate NoKey<T>(s: seq<Ranked<T>>, key: Key) {
    forall i :: 0 <= i < |s| ==> s[i].key != key
  }

  lemma NoKeyLonger<T>(s: seq<Ranked<T>>, key: Key)
    requires s != []
    ensures NoKey(s, key) <==> NoKey(s[..|s| - 1], key) && s[|s| - 1].key != key
  {
    assert forall i :: 0 <= i < |s| - 1 ==> s[..|s| - 1][i] == s[i];
  }

  lemma {:induction false} FirstMeans<T>(s: seq<Ranked<T>>, key: Key)
    ensures First(s, key).None? <==> NoKey(s, key)
    ensures First(s, key).Some? ==> exists i: nat :: FirstAt(s, key, i) && s[i] == First(s, key).value
  {
    if s != [] {
      var n := |s| - 1;
      FirstMeans(s[..n], key);
      NoKeyLonger(s, key);
      if First(s[..n], key).Some? {
        var i: nat :| FirstAt(s[..n], key, i) && s[..n][i] == First(s[..n], key).value;
        assert FirstAt(s, key, i);
      } else if s[n].key == key {
        assert FirstAt(s, key, n);
      }
    }
  }

  /** One more element is the first of the best, or leaves it. */
  lemma BestLonger<T>(s: seq<Ranked<T>>, key: Key, i: nat)
    requires s != [] && FirstBestAt(s[..|s| - 1], key, i)
    ensures FirstBestAt(s, key, if s[|s| - 1].key == key && s[|s| - 1].score > s[i].score then |s| - 1 else i)
  {
    assert forall j :: 0 <= j < |s| - 1 ==> s[..|s| - 1][j] == s[j];
  }

  lemma {:induction false} FirstBestMeans<T>(s: seq<Ranked<T>>, key: Key)
    ensures FirstBest(s, key).None? <==> NoKey(s, key)
    ensures FirstBest(s, key).Some? ==> exists i: nat :: FirstBestAt(s, key, i) && s[i] == FirstBest(s, key).value
  {
    if s != [] {
      var n := |s| - 1;
      FirstBestMeans(s[..n], key);
      NoKeyLonger(s, key);
      if FirstBest(s[..n], key).Some? {
        var i: nat :| FirstBestAt(s[..n], key, i) && s[..n][i] == FirstBest(s[..n], key).value;
        BestLonger(s, key, i);
      } else if s[n].key == key {
        assert FirstBestAt(s, key, n);
      }
      hide FirstBestAt, NoKey;
    }
  }

  /** The element with the key that an insertion leaves in front. */
  lemma {:induction false} InsertFirst<T>(s: seq<Ranked<T>>, x: Ranked<T>, key: Key)
    requires Sorted(s)
    ensures var first := First(s, key);
            First(Insert(s, x), key) == if x.key == key && (first.None? || x.score > first.value.score) then Some(x) else first
  {
    if s == [] || Before(s[|s| - 1], x) {
      assert (s + [x])[..|s|] == s;
      FirstMeans(s, key);
      if x.key == key && First(s, key).Some? {
        var i: nat :| FirstAt(s, key, i) && s[i] == First(s, key).value;
        assert Before(s[i], x) by {
          if i < |s| - 1 {
            BeforeTransitive(s[i], s[|s| - 1], x);
          }
        }
      }
    } else {
      var n := |s| - 1;
      InsertFirst(s[..n], x, key);
      assert Insert(s, x)[..|Insert(s, x)| - 1] == Insert(s[..n], x);
    }
  }

  lemma {:induction false} SortFirst<T>(s: seq<Ranked<T>>, key: Key)
    ensures First(Sort(s), key) == FirstBest(s, key)
  {
    if s != [] {
      var n := |s| - 1;
      SortFirst(s[..n], key);
      SortSorts(s[..n]);
      InsertFirst(Sort(s[..n]), s[n], key);
    }
  }

  /** Keys in ascending order, each once. */
  predicate Ascending<T>(s: seq<Ranked<T>>) {
    forall i, j :: 0 <= i < j < |s| ==> s[i].key != s[j].key && KeyLeq(s[i].key, s[j].key)
  }

  predicate AllFirst<T(==)>(kept: seq<Ranked<T>>, s: seq<Ranked<T>>) {
    forall i :: 0 <= i < |kept| ==> First(s, kept[i].key) == Some(kept[i])
  }

  lemma {:induction false} DedupFirst<T>(s: seq<Ranked<T>>)
    requires Sorted(s)
    ensures Ascending(Dedup(s)) && AllFirst(Dedup(s), s)
  {
    if s != [] {
      var n := |s| - 1;
      DedupFirst(s[..n]);
      DedupSorted(s[..n]);
      DedupSorted(s);
      if Dedup(s) == Dedup(s[..n]) {
        StillFirst(s, Dedup(s));
      } else {
        OneMore(s, Dedup(s[..n]));
      }
      hide Represents, Sorted, Ascending, AllFirst;
    }
  }

  lemma StillFirst<T>(s: seq<Ranked<T>>, kept: seq<Ranked<T>>)
    requires s != [] && AllFirst(kept, s[..|s| - 1])
    ensures AllFirst(kept, s)
  {
  }

  lemma OneMore<T>(s: seq<Ranked<T>>, before: seq<Ranked<T>>)
    requires Sorted(s) && s != [] && Represents(before, s[..|s| - 1]) && OncePerKey(before + [s[|s| - 1]])
    requires Ascending(before) && AllFirst(before, s[..|s| - 1])
    ensures Ascending(before + [s[|s| - 1]]) && AllFirst(before + [s[|s| - 1]], s)
  {
    hide KeyLeq, AllCovered;
    var n := |s| - 1;
    var kept := before + [s[n]];
    forall i | 0 <= i < |before|
      ensures before[i].key != s[n].key && KeyLeq(before[i].key, s[n].key)
    {
      assert before[i] in s[..n];
      assert kept[i].key != kept[|before|].key;
    }
    NewKey(s, before);
    StillFirst(s, before);
    assert forall i :: 0 <= i < |before| ==> kept[i] == before[i];
  }

  lemma NewKey<T>(s: seq<Ranked<T>>, before: seq<Ranked<T>>)
    requires s != [] && AllCovered(before, s[..|s| - 1]) && forall i :: 0 <= i < |before| ==> before[i].key != s[|s| - 1].key
    ensures First(s, s[|s| - 1].key) == Some(s[|s| - 1])
  {
    var n := |s| - 1;
    forall i | 0 <= i < n
      ensures s[..n][i].key != s[n].key
    {
      assert Covers(before, s[..n][i]);
    }
    FirstMeans(s[..n], s[n].key);
  }

  /** The result is ascending, and each of its elements is the first of the best that the input has for its key. */
  lemma SortDedupExact<T>(s: seq<Ranked<T>>)
    ensures Ascending(SortDedup(s))
    ensures forall k :: 0 <= k < |SortDedup(s)| ==> exists i: nat :: FirstBestAt(s, SortDedup(s)[k].key, i) && s[i] == SortDedup(s)[k]
  {
    SortSorts(s);
    DedupFirst(Sort(s));
    forall k | 0 <= k < |SortDedup(s)|
      ensures exists i: nat :: FirstBestAt(s, SortDedup(s)[k].key, i) && s[i] == SortDedup(s)[k]
    {
      SortFirst(s, SortDedup(s)[k].key);
      FirstBestMeans(s, SortDedup(s)[k].key);
    }
  }
}
