/**
 One relationship of the graph: three parallel lists, one entry per source memory, and the cached
 maxima of two of them. Older rows may carry confidence lists that are too short; every write reads
 such a gap as the cached value and leaves the lists complete. Time stamps are ordered values, 0
 standing for the empty string the reduction starts from.
 */
module GraphEdges {
  import opened Sequences
  import opened Wrappers

  type Id = string
  type Stamp = nat

  datatype Evidence = Evidence(confidence: real, confirmed: Stamp)

  datatype EdgeRow = EdgeRow(
    ids: seq<Id>, confidences: seq<real>, confirmations: seq<Stamp>, confidence: real, lastConfirmed: Stamp, createdAt: Stamp)

  function Coalesce<T>(list: seq<T>, i: nat, cached: T): T {
    if i < |list| then list[i] else cached
  }

  /** The positions of the other sources, in order. */
  function Keep(ids: seq<Id>, m: Id): (keep: seq<nat>)
    ensures forall j :: 0 <= j < |keep| ==> keep[j] < |ids| && ids[keep[j]] != m
    ensures forall i, j :: 0 <= i < j < |keep| ==> keep[i] < keep[j]
    ensures forall i :: 0 <= i < |ids| && ids[i] != m ==> i in keep
  {
    if ids == [] then []
    else
      var n := |ids| - 1;
      if ids[n] == m then Keep(ids[..n], m) else Keep(ids[..n], m) + [n]
  }

  function Pick<T>(keep: seq<nat>, list: seq<T>, cached: T): (picked: seq<T>)
    ensures |picked| == |keep| && forall j :: 0 <= j < |keep| ==> picked[j] == Coalesce(list, keep[j], cached)
  {
    seq(|keep|, j requires 0 <= j < |keep| => Coalesce(list, keep[j], cached))
  }

  function Filled<T>(n: nat, list: seq<T>, cached: T): (filled: seq<T>)
    ensures |filled| == n && forall i :: 0 <= i < n ==> filled[i] == Coalesce(list, i, cached)
  {
    seq(n, i requires 0 <= i < n => Coalesce(list, i, cached))
  }

  function Best(scores: seq<real>): (best: real)
    ensures best >= 0.0 && (best == 0.0 || best in scores)
    ensures forall score :: score in scores ==> score <= best
  {
    if scores == [] then 0.0
    else
      assert scores == scores[..|scores| - 1] + [scores[|scores| - 1]];
      var best := Best(scores[..|scores| - 1]);
      if scores[|scores| - 1] > best then scores[|scores| - 1] else best
  }

  function Latest(stamps: seq<Stamp>): (latest: Stamp)
    ensures latest == 0 || latest in stamps
    ensures forall stamp :: stamp in stamps ==> stamp <= latest
  {
    if stamps == [] then 0
    else
      assert stamps == stamps[..|stamps| - 1] + [stamps[|stamps| - 1]];
      var latest := Latest(stamps[..|stamps| - 1]);
      if stamps[|stamps| - 1] > latest then stamps[|stamps| - 1] else latest
  }

  function Recached(e: EdgeRow): EdgeRow {
    e.(confidence := Best(e.confidences), lastConfirmed := Latest(e.confirmations))
  }

  function RemoveSource(e: EdgeRow, m: Id): EdgeRow {
    var keep := Keep(e.ids, m);
    Recached(EdgeRow(Pick(keep, e.ids, ""), Pick(keep, e.confidences, e.confidence),
                     Pick(keep, e.confirmations, e.lastConfirmed), e.confidence, e.lastConfirmed, e.createdAt))
  }

  function BlankRow(createdAt: Stamp): EdgeRow {
    EdgeRow([], [], [], 0.0, 0, createdAt)
  }

  function AppendSource(e: EdgeRow, m: Id, v: Evidence): EdgeRow {
    Recached(EdgeRow(e.ids + [m], Filled(|e.ids|, e.confidences, e.confidence) + [v.confidence],
                     Filled(|e.ids|, e.confirmations, e.lastConfirmed) + [v.confirmed], e.confidence, e.lastConfirmed, e.createdAt))
  }

  /** The sources not listed yet, each once, in the order given. */
  function Added(ids: seq<Id>, sources: seq<Id>): (added: seq<Id>)
    ensures Distinct(added)
    ensures forall id :: id in added <==> id in sources && id !in ids
  {
    if sources == [] then []
    else
      var last := sources[|sources| - 1];
      var added := Added(ids, sources[..|sources| - 1]);
      if last in ids || last in added then added else added + [last]
  }

  /** A list with the entries of the named sources overwritten, and one more entry per added source. */
  function Overwritten<T>(ids: seq<Id>, added: seq<Id>, sources: seq<Id>, list: seq<T>, cached: T, value: T): (r: seq<T>)
    ensures |r| == |ids| + |added|
    ensures forall i :: 0 <= i < |ids| ==> r[i] == if ids[i] in sources then value else Coalesce(list, i, cached)
    ensures forall i :: |ids| <= i < |r| ==> r[i] == value
  {
    seq(|ids|, i requires 0 <= i < |ids| => if ids[i] in sources then value else Coalesce(list, i, cached))
      + seq(|added|, _ => value)
  }

  /** Overwrites the listed sources in place and appends the new ones. */
  function MergeSources(e: EdgeRow, sources: seq<Id>, v: Evidence): EdgeRow {
    var added := Added(e.ids, sources);
    Recached(EdgeRow(e.ids + added, Overwritten(e.ids, added, sources, e.confidences, e.confidence, v.confidence),
                     Overwritten(e.ids, added, sources, e.confirmations, e.lastConfirmed, v.confirmed),
                     e.confidence, e.lastConfirmed, e.createdAt))
  }

  // ---- The map from source to evidence that an edge stands for ----

  function At(e: EdgeRow, i: nat): Evidence {
    Evidence(Coalesce(e.confidences, i, e.confidence), Coalesce(e.confirmations, i, e.lastConfirmed))
  }

  ghost function EvidenceOf(e: EdgeRow, id: Id): Option<Evidence> {
    if id in e.ids then
      var i :| 0 <= i < |e.ids| && e.ids[i] == id;
      Some(At(e, i))
    else None
  }

  predicate NonNegative(e: EdgeRow) {
    e.confidence >= 0.0 && forall i :: 0 <= i < |e.confidences| ==> e.confidences[i] >= 0.0
  }

  predicate Full(e: EdgeRow) {
    |e.confidences| == |e.ids| && |e.confirmations| == |e.ids| && e == Recached(e)
  }

  lemma EvidenceAt(e: EdgeRow, i: nat)
    requires Distinct(e.ids) && i < |e.ids|
    ensures EvidenceOf(e, e.ids[i]) == Some(At(e, i))
  {
  }

  /** What every write leaves behind: distinct sources, complete lists, true maxima, no negative score. */
  predicate Sound(e: EdgeRow) {
    Distinct(e.ids) && Full(e) && NonNegative(e)
  }

  lemma RemoveSourceSound(e: EdgeRow, m: Id)
    requires Distinct(e.ids) && NonNegative(e)
    ensures Sound(RemoveSource(e, m))
  {
    var keep, r := Keep(e.ids, m), RemoveSource(e, m);
    forall i, j | 0 <= i < j < |r.ids|
      ensures r.ids[i] != r.ids[j]
    {
      assert r.ids[i] == e.ids[keep[i]] && r.ids[j] == e.ids[keep[j]];
    }
  }

  /** Removal forgets one source and nothing else. */
  lemma RemoveSourceMeans(e: EdgeRow, m: Id, id: Id)
    requires Distinct(e.ids) && NonNegative(e)
    ensures EvidenceOf(RemoveSource(e, m), id) == if id == m then None else EvidenceOf(e, id)
  {
    hide Best, Latest, Full, NonNegative;
    var keep, r := Keep(e.ids, m), RemoveSource(e, m);
    RemoveSourceSound(e, m);
    if id != m && id in e.ids {
      var i :| 0 <= i < |e.ids| && e.ids[i] == id;
      var j :| 0 <= j < |keep| && keep[j] == i;
      EvidenceAt(e, i);
      assert r.ids[j] == id;
      EvidenceAt(r, j);
    }
  }

  lemma AppendSourceSound(e: EdgeRow, m: Id, v: Evidence)
    requires Distinct(e.ids) && NonNegative(e) && v.confidence >= 0.0
    ensures Full(AppendSource(e, m, v)) && NonNegative(AppendSource(e, m, v))
    ensures Distinct(AppendSource(e, m, v).ids) <==> m !in e.ids
  {
    var r := AppendSource(e, m, v);
    if m in e.ids {
      var i :| 0 <= i < |e.ids| && e.ids[i] == m;
      assert r.ids[i] == r.ids[|e.ids|];
    }
  }

  /** Appending adds the one source and leaves the others as they were. */
  lemma AppendSourceMeans(e: EdgeRow, m: Id, v: Evidence, id: Id)
    requires Distinct(e.ids) && NonNegative(e) && v.confidence >= 0.0 && m !in e.ids
    ensures EvidenceOf(AppendSource(e, m, v), id) == if id == m then Some(v) else EvidenceOf(e, id)
  {
    hide Best, Latest, Full, NonNegative;
    var r := AppendSource(e, m, v);
    AppendSourceSound(e, m, v);
    if id == m {
      EvidenceAt(r, |e.ids|);
    } else if id in e.ids {
      var i :| 0 <= i < |e.ids| && e.ids[i] == id;
      EvidenceAt(e, i);
      assert r.ids[i] == id;
      EvidenceAt(r, i);
    } else {
      assert id !in r.ids;
    }
  }

  lemma MergeSourcesSound(e: EdgeRow, sources: seq<Id>, v: Evidence)
    requires Distinct(e.ids) && NonNegative(e) && v.confidence >= 0.0
    ensures Sound(MergeSources(e, sources, v))
  {
    var r, added := MergeSources(e, sources, v), Added(e.ids, sources);
    forall i, j | 0 <= i < j < |r.ids|
      ensures r.ids[i] != r.ids[j]
    {
      if i < |e.ids| <= j {
        assert added[j - |e.ids|] in added;
      }
    }
  }

  /** A merge sets the evidence of exactly the sources it names. */
  lemma MergeSourcesMeans(e: EdgeRow, sources: seq<Id>, v: Evidence, id: Id)
    requires Distinct(e.ids) && NonNegative(e) && v.confidence >= 0.0
    ensures EvidenceOf(MergeSources(e, sources, v), id) == if id in sources then Some(v) else EvidenceOf(e, id)
  {
    hide Best, Latest, Full, NonNegative;
    var r, added := MergeSources(e, sources, v), Added(e.ids, sources);
    MergeSourcesSound(e, sources, v);
    if id in e.ids {
      var i :| 0 <= i < |e.ids| && e.ids[i] == id;
      EvidenceAt(e, i);
      assert r.ids[i] == id;
      EvidenceAt(r, i);
    } else if id in sources {
      var j :| 0 <= j < |added| && added[j] == id;
      assert r.ids[|e.ids| + j] == id;
      EvidenceAt(r, |e.ids| + j);
    } else {
      assert id !in added && id !in r.ids;
    }
  }

  // ---- The cached values ----

  /** The cached values of a complete edge are attained maxima over its sources' evidence. */
  lemma CachedAreMaxima(e: EdgeRow)
    requires Sound(e) && e.ids != []
    ensures forall id :: EvidenceOf(e, id).Some? ==>
              EvidenceOf(e, id).value.confidence <= e.confidence && EvidenceOf(e, id).value.confirmed <= e.lastConfirmed
    ensures exists id :: EvidenceOf(e, id).Some? && EvidenceOf(e, id).value.confidence == e.confidence
    ensures exists id :: EvidenceOf(e, id).Some? && EvidenceOf(e, id).value.confirmed == e.lastConfirmed
  {
    forall id | EvidenceOf(e, id).Some?
      ensures EvidenceOf(e, id).value.confidence <= e.confidence && EvidenceOf(e, id).value.confirmed <= e.lastConfirmed
    {
      var i :| 0 <= i < |e.ids| && e.ids[i] == id;
      EvidenceAt(e, i);
      assert e.confidences[i] in e.confidences && e.confirmations[i] in e.confirmations;
    }
    assert e.confidences[0] in e.confidences && e.confirmations[0] in e.confirmations;
    assert e.confidence == Best(e.confidences) && e.lastConfirmed == Latest(e.confirmations);
    var i :| 0 <= i < |e.confidences| && e.confidences[i] == e.confidence;
    var j :| 0 <= j < |e.confirmations| && e.confirmations[j] == e.lastConfirmed;
    EvidenceAt(e, i);
    EvidenceAt(e, j);
  }

  /** Complete edges with the same evidence have the same cached values and list the same sources. */
  lemma EvidenceDecides(a: EdgeRow, b: EdgeRow)
    requires Sound(a) && a.ids != []
    requires Sound(b) && b.ids != []
    requires forall id :: EvidenceOf(a, id) == EvidenceOf(b, id)
    ensures a.confidence == b.confidence && a.lastConfirmed == b.lastConfirmed && multiset(a.ids) == multiset(b.ids)
  {
    CachedAreMaxima(a);
    CachedAreMaxima(b);
    forall id
      ensures id in a.ids <==> id in b.ids
    {
      assert EvidenceOf(a, id).Some? <==> EvidenceOf(b, id).Some?;
    }
    SameElements(a.ids, b.ids);
  }
}
