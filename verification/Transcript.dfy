/**
 Deterministic transcript chunks and the checks that tie host candidates to them.
 */
module Transcript {
  import Memories
  import opened Wrappers

  type MessageId = string

  type Privacy = Memories.Privacy

  datatype Message = Message(id: MessageId, role: string, content: string, privacy: Privacy)

  datatype Chunk = Chunk(content: string, ids: seq<MessageId>)

  datatype Candidate = Candidate(content: string, sources: seq<MessageId>, privacy: Privacy, inScope: bool)

  datatype Lane = Fast | Deep

  const MAX_MESSAGES := 100_000

  function PrivacyRank(level: Privacy): nat {
    match level
    case Shared => 0
    case Private => 1
    case Sensitive => 2
    case Restricted => 3
  }

  /** Restricted over sensitive over private over shared. */
  predicate NoWeaker(level: Privacy, source: Privacy) {
    match source
    case Shared => true
    case Private => !level.Shared?
    case Sensitive => level.Sensitive? || level.Restricted?
    case Restricted => level.Restricted?
  }

  lemma RanksAgree(level: Privacy, source: Privacy)
    ensures PrivacyRank(source) <= PrivacyRank(level) <==> NoWeaker(level, source)
  {
  }

  function Line(m: Message): string {
    m.role + ": " + m.content
  }

  function Text(messages: seq<Message>): string {
    if messages == [] then ""
    else if |messages| == 1 then Line(messages[0])
    else Text(messages[..|messages| - 1]) + "\n" + Line(messages[|messages| - 1])
  }

  function MessageIds(messages: seq<Message>): seq<MessageId> {
    seq(|messages|, i requires 0 <= i < |messages| => messages[i].id)
  }

  function Chunks(messages: seq<Message>, size: nat): seq<Chunk>
    requires size > 0
  {
    if messages == [] then []
    else
      var n := if |messages| < size then |messages| else size;
      [Chunk(Text(messages[..n]), MessageIds(messages[..n]))] + Chunks(messages[n..], size)
  }

  function Flatten(chunks: seq<Chunk>): seq<MessageId> {
    if chunks == [] then [] else chunks[0].ids + Flatten(chunks[1..])
  }

  /** The chunks' ids, one after another, are the session's ids in order. */
  lemma {:induction false} ChunksCover(messages: seq<Message>, size: nat)
    requires size > 0
    ensures Flatten(Chunks(messages, size)) == MessageIds(messages)
  {
    if messages != [] {
      var n := if |messages| < size then |messages| else size;
      ChunksCover(messages[n..], size);
      assert MessageIds(messages[..n]) + MessageIds(messages[n..]) == MessageIds(messages);
    }
  }

  predicate JustEnough(count: nat, size: nat, n: nat) {
    n <= count * size < n + size
  }

  lemma JustEnoughStep(count: nat, size: nat, n: nat)
    requires n > 0 && size > 0
    requires JustEnough(count, size, if n < size then 0 else n - size)
    ensures JustEnough(count + 1, size, n)
  {
    assert (count + 1) * size == count * size + size;
    assert count > 0 ==> count * size >= size;
  }

  /** The messages of the chunk: as many as fit, from where the previous one ended. */
  function Slice(messages: seq<Message>, size: nat, i: nat): seq<Message>
    requires i * size <= |messages|
  {
    if |messages| < i * size + size then messages[i * size..] else messages[i * size..i * size + size]
  }

  lemma SliceRest(messages: seq<Message>, size: nat, i: nat)
    requires i > 0 && size <= |messages| && (i - 1) * size <= |messages| - size
    ensures i * size <= |messages| && Slice(messages[size..], size, i - 1) == Slice(messages, size, i)
    ensures (i - 1) * size < |messages| - size ==> i * size < |messages|
  {
    assert i * size == (i - 1) * size + size;
    var k, rest := (i - 1) * size, messages[size..];
    assert rest[k..] == messages[k + size..];
    assert k + size <= |rest| ==> rest[k..k + size] == messages[k + size..k + size + size];
  }

  /** Each chunk joins its own slice of the messages. */
  lemma {:induction false} ChunkAt(messages: seq<Message>, size: nat, i: nat)
    requires size > 0 && i < |Chunks(messages, size)|
    ensures i * size < |messages|
    ensures Chunks(messages, size)[i] == Chunk(Text(Slice(messages, size, i)), MessageIds(Slice(messages, size, i)))
  {
    hide Text, MessageIds;
    var n := if |messages| < size then |messages| else size;
    if i == 0 {
      assert Slice(messages, size, 0) == messages[..n];
    } else {
      hide Slice;
      assert Chunks(messages, size)[i] == Chunks(messages[n..], size)[i - 1];
      ChunkAt(messages[n..], size, i - 1);
      SliceRest(messages, size, i);
    }
  }

  /** As many chunks as needed and no more. */
  lemma {:induction false} ChunkCount(messages: seq<Message>, size: nat)
    requires size > 0
    ensures JustEnough(|Chunks(messages, size)|, size, |messages|)
  {
    if messages != [] {
      var n := if |messages| < size then |messages| else size;
      ChunkCount(messages[n..], size);
      JustEnoughStep(|Chunks(messages[n..], size)|, size, |messages|);
    }
  }

  /** Every chunk but the last is full, and none is empty. */
  lemma {:induction false} ChunkSize(messages: seq<Message>, size: nat, i: nat)
    requires size > 0 && i < |Chunks(messages, size)|
    ensures 0 < |Chunks(messages, size)[i].ids| <= size
    ensures i < |Chunks(messages, size)| - 1 ==> |Chunks(messages, size)[i].ids| == size
  {
    var n := if |messages| < size then |messages| else size;
    if i > 0 {
      ChunkSize(messages[n..], size, i - 1);
    }
  }

  /** One chunk's text and source ids, built message by message. */
  method JoinChunk(chunk: seq<Message>) returns (content: string, ids: seq<MessageId>)
    ensures content == Text(chunk) && ids == MessageIds(chunk)
  {
    content, ids := "", [];
    for index := 0 to |chunk|
      invariant content == Text(chunk[..index])
      invariant ids == MessageIds(chunk[..index])
    {
      TextSnoc(chunk, index);
      if index > 0 {
        content := content + "\n";
      }
      content := content + chunk[index].role;
      content := content + ": ";
      content := content + chunk[index].content;
      ids := ids + [chunk[index].id];
    }
    assert chunk[..|chunk|] == chunk;
  }

  method TranscriptChunks(messages: seq<Message>, size: nat) returns (r: Result<seq<Chunk>, string>)
    ensures r.Success? <==> size > 0
    ensures r.Success? ==> r.value == Chunks(messages, size)
  {
    hide Text, MessageIds;
    if size == 0 {
      return Failure("chunk_messages must be positive");
    }
    var chunks: seq<Chunk> := [];
    var start := 0;
    while start < |messages|
      invariant 0 <= start <= |messages|
      invariant chunks + Chunks(messages[start..], size) == Chunks(messages, size)
    {
      var end := if |messages| - start < size then |messages| else start + size;
      var content, ids := JoinChunk(messages[start..end]);
      assert messages[start..][..end - start] == messages[start..end] && messages[start..][end - start..] == messages[end..];
      assert Chunks(messages[start..], size) == [Chunk(content, ids)] + Chunks(messages[end..], size);
      chunks := chunks + [Chunk(content, ids)];
      start := end;
    }
    return Success(chunks);
  }

  lemma TextSnoc(chunk: seq<Message>, index: nat)
    requires index < |chunk|
    ensures Text(chunk[..index + 1]) ==
            (if index > 0 then Text(chunk[..index]) + "\n" else "") + chunk[index].role + ": " + chunk[index].content
    ensures MessageIds(chunk[..index + 1]) == MessageIds(chunk[..index]) + [chunk[index].id]
  {
    var taken := chunk[..index + 1];
    assert taken[..|taken| - 1] == chunk[..index] && taken[index] == chunk[index];
    if index > 0 {
      assert Text(taken) == Text(chunk[..index]) + "\n" + Line(chunk[index]);
    } else {
      assert Text(taken) == Line(chunk[index]);
    }
  }

  // ---- Candidates ----

  predicate Distinct(messages: seq<Message>) {
    forall i, j :: 0 <= i < j < |messages| ==> messages[i].id != messages[j].id
  }

  predicate KnownAndGuarded(messages: seq<Message>, c: Candidate, id: MessageId) {
    exists m :: m in messages && m.id == id && PrivacyRank(m.privacy) <= PrivacyRank(c.privacy)
  }

  function ChunksFor(lane: Lane, messages: seq<Message>, size: nat): seq<Chunk> {
    if lane.Deep? && size > 0 then Chunks(messages, size) else []
  }

  predicate CandidateAccepted(lane: Lane, messages: seq<Message>, chunks: seq<Chunk>, candidates: seq<Candidate>, i: nat)
    requires i < |candidates| && (lane.Deep? ==> |chunks| == |candidates|)
  {
    var c := candidates[i];
    && c.inScope && c.sources != []
    && (forall id :: id in c.sources ==> KnownAndGuarded(messages, c, id))
    && (lane.Deep? ==> c.content == chunks[i].content && c.sources == chunks[i].ids)
  }

  predicate Accepted(lane: Lane, messages: seq<Message>, forgotten: set<MessageId>, size: nat, candidates: seq<Candidate>) {
    && 1 <= |messages| <= MAX_MESSAGES
    && Distinct(messages)
    && (forall i :: 0 <= i < |messages| ==> messages[i].id !in forgotten)
    && (lane.Deep? ==> size > 0 && |ChunksFor(lane, messages, size)| == |candidates|)
    && forall i :: 0 <= i < |candidates| ==> CandidateAccepted(lane, messages, ChunksFor(lane, messages, size), candidates, i)
  }

  predicate Indexed(messages: seq<Message>, privacyById: map<MessageId, Privacy>) {
    && (forall j :: 0 <= j < |messages| ==> messages[j].id in privacyById && privacyById[messages[j].id] == messages[j].privacy)
    && (forall id :: id in privacyById ==> exists j :: 0 <= j < |messages| && messages[j].id == id)
  }

  lemma IndexedMore(messages: seq<Message>, index: map<MessageId, Privacy>)
    requires messages != [] && Indexed(messages[..|messages| - 1], index) && Distinct(messages[..|messages| - 1])
    ensures messages[|messages| - 1].id in index <==> !Distinct(messages)
    ensures Distinct(messages) ==> Indexed(messages, index[messages[|messages| - 1].id := messages[|messages| - 1].privacy])
  {
    var n := |messages| - 1;
    var last, front := messages[n], messages[..n];
    if last.id in index {
      var j :| 0 <= j < n && front[j].id == last.id;
      assert messages[j].id == messages[n].id;
    } else {
      forall j | 0 <= j < n
        ensures messages[j].id in index && messages[j].id != last.id
      {
        assert front[j] == messages[j];
      }
      var grown := index[last.id := last.privacy];
      forall id | id in grown
        ensures exists j :: 0 <= j < |messages| && messages[j].id == id
      {
        if id != last.id {
          var j :| 0 <= j < n && front[j].id == id;
          assert messages[j].id == id;
        }
      }
    }
  }

  lemma {:induction false} NotDistinctMore(messages: seq<Message>, n: nat)
    requires n <= |messages| && !Distinct(messages[..n])
    ensures !Distinct(messages)
  {
    var i, j :| 0 <= i < j < n && messages[..n][i].id == messages[..n][j].id;
    assert messages[i].id == messages[j].id;
  }

  /** The privacy of every source, filled message by message; none if an id repeats or was forgotten. */
  method IndexMessages(messages: seq<Message>, forgotten: set<MessageId>) returns (index: Option<map<MessageId, Privacy>>)
    ensures index.Some? <==> Distinct(messages) && forall i :: 0 <= i < |messages| ==> messages[i].id !in forgotten
    ensures index.Some? ==> Indexed(messages, index.value)
  {
    hide Indexed, Distinct;
    var privacyById: map<MessageId, Privacy> := map[];
    IndexedNone();
    for i := 0 to |messages|
      invariant Distinct(messages[..i])
      invariant forall j :: 0 <= j < i ==> messages[j].id !in forgotten
      invariant Indexed(messages[..i], privacyById)
    {
      assert messages[..i + 1][..i] == messages[..i];
      IndexedMore(messages[..i + 1], privacyById);
      if messages[i].id in privacyById {
        NotDistinctMore(messages, i + 1);
        return None;
      }
      if messages[i].id in forgotten {
        return None;
      }
      privacyById := privacyById[messages[i].id := messages[i].privacy];
    }
    assert messages[..|messages|] == messages;
    return Some(privacyById);
  }

  lemma IndexedNone()
    ensures Distinct([]) && Indexed([], map[])
  {
  }

  method CheckCandidate(lane: Lane, messages: seq<Message>, index: map<MessageId, Privacy>, chunks: seq<Chunk>, candidates: seq<Candidate>, i: nat)
    returns (accepted: bool)
    requires Distinct(messages) && Indexed(messages, index)
    requires i < |candidates| && (lane.Deep? ==> |chunks| == |candidates|)
    ensures accepted == CandidateAccepted(lane, messages, chunks, candidates, i)
  {
    var c := candidates[i];
    if !c.inScope || c.sources == [] {
      return false;
    }
    for k := 0 to |c.sources|
      invariant forall j :: 0 <= j < k ==> KnownAndGuarded(messages, c, c.sources[j])
    {
      LookupMeans(messages, index, c, c.sources[k]);
      if c.sources[k] !in index || PrivacyRank(c.privacy) < PrivacyRank(index[c.sources[k]]) {
        assert !KnownAndGuarded(messages, c, c.sources[k]);
        return false;
      }
    }
    accepted := lane.Deep? ==> c.content == chunks[i].content && c.sources == chunks[i].ids;
  }

  /** The checks of a consolidation request before anything is written. */
  method CheckRequest(lane: Lane, messages: seq<Message>, forgotten: set<MessageId>, size: nat, candidates: seq<Candidate>)
    returns (accepted: bool)
    ensures accepted == Accepted(lane, messages, forgotten, size, candidates)
  {
    if |messages| == 0 || |messages| > MAX_MESSAGES {
      return false;
    }
    var index := IndexMessages(messages, forgotten);
    if index.None? {
      return false;
    }
    var chunks: seq<Chunk> := [];
    if lane.Deep? {
      var made := TranscriptChunks(messages, size);
      if made.Failure? || |made.value| != |candidates| {
        return false;
      }
      chunks := made.value;
    }
    assert chunks == ChunksFor(lane, messages, size);
    for i := 0 to |candidates|
      invariant forall j :: 0 <= j < i ==> CandidateAccepted(lane, messages, chunks, candidates, j)
    {
      var ok := CheckCandidate(lane, messages, index.value, chunks, candidates, i);
      if !ok {
        return false;
      }
    }
    return true;
  }

  lemma LookupMeans(messages: seq<Message>, privacyById: map<MessageId, Privacy>, c: Candidate, id: MessageId)
    requires Distinct(messages) && Indexed(messages, privacyById)
    ensures KnownAndGuarded(messages, c, id) <==> id in privacyById && PrivacyRank(privacyById[id]) <= PrivacyRank(c.privacy)
  {
  }

  function Sources(candidates: seq<Candidate>): seq<MessageId> {
    if candidates == [] then [] else candidates[0].sources + Sources(candidates[1..])
  }

  lemma {:induction false} SourcesAreChunkIds(candidates: seq<Candidate>, chunks: seq<Chunk>)
    requires |candidates| == |chunks|
    requires forall i :: 0 <= i < |chunks| ==> candidates[i].sources == chunks[i].ids
    ensures Sources(candidates) == Flatten(chunks)
  {
    if candidates != [] {
      SourcesAreChunkIds(candidates[1..], chunks[1..]);
    }
  }

  /** What a candidate must be, on its own fields and the messages'. */
  predicate Fits(messages: seq<Message>, c: Candidate) {
    && c.inScope && c.sources != []
    && forall id :: id in c.sources ==> exists m :: m in messages && m.id == id && NoWeaker(c.privacy, m.privacy)
  }

  lemma GuardedMeans(messages: seq<Message>, c: Candidate, id: MessageId)
    ensures KnownAndGuarded(messages, c, id) <==> exists m :: m in messages && m.id == id && NoWeaker(c.privacy, m.privacy)
  {
    forall m: Message
      ensures PrivacyRank(m.privacy) <= PrivacyRank(c.privacy) <==> NoWeaker(c.privacy, m.privacy)
    {
      RanksAgree(c.privacy, m.privacy);
    }
    hide PrivacyRank, NoWeaker;
  }

  /** A deep candidate repeats its slice of the transcript, text and ids. */
  predicate Repeats(messages: seq<Message>, size: nat, c: Candidate, i: nat) {
    && i * size < |messages|
    && c.content == Text(Slice(messages, size, i)) && c.sources == MessageIds(Slice(messages, size, i))
  }

  lemma CandidateMeans(lane: Lane, messages: seq<Message>, size: nat, candidates: seq<Candidate>, i: nat)
    requires i < |candidates| && (lane.Deep? ==> size > 0 && |Chunks(messages, size)| == |candidates|)
    ensures CandidateAccepted(lane, messages, ChunksFor(lane, messages, size), candidates, i) <==>
              Fits(messages, candidates[i]) && (lane.Deep? ==> Repeats(messages, size, candidates[i], i))
  {
    var c := candidates[i];
    forall id
      ensures KnownAndGuarded(messages, c, id) <==> exists m :: m in messages && m.id == id && NoWeaker(c.privacy, m.privacy)
    {
      GuardedMeans(messages, c, id);
    }
    if lane.Deep? {
      ChunkAt(messages, size, i);
    }
    hide KnownAndGuarded, NoWeaker, Chunks, Text, MessageIds, Slice;
  }

  /**
   A request is accepted if and only if the session has 1 to 100000 messages with distinct ids, none of them
   forgotten; every candidate is in scope and has sources, all of them messages, and is no less private than
   any; and in the deep lane there is one candidate for each slice of the transcript, and it repeats it.
   */
  lemma AcceptedIff(lane: Lane, messages: seq<Message>, forgotten: set<MessageId>, size: nat, candidates: seq<Candidate>)
    ensures Accepted(lane, messages, forgotten, size, candidates) <==>
              (&& 1 <= |messages| <= 100_000
               && (forall i, j :: 0 <= i < j < |messages| ==> messages[i].id != messages[j].id)
               && (forall i :: 0 <= i < |messages| ==> messages[i].id !in forgotten)
               && (forall i :: 0 <= i < |candidates| ==> Fits(messages, candidates[i]))
               && (lane.Deep? ==>
                     && size > 0 && |messages| <= |candidates| * size < |messages| + size
                     && forall i :: 0 <= i < |candidates| ==> Repeats(messages, size, candidates[i], i)))
  {
    if lane.Deep? && size > 0 {
      ChunkCount(messages, size);
      SameCount(|Chunks(messages, size)|, |candidates|, size, |messages|);
    }
    if lane.Fast? || (size > 0 && |Chunks(messages, size)| == |candidates|) {
      forall i | 0 <= i < |candidates|
        ensures CandidateAccepted(lane, messages, ChunksFor(lane, messages, size), candidates, i) <==>
                  Fits(messages, candidates[i]) && (lane.Deep? ==> Repeats(messages, size, candidates[i], i))
      {
        CandidateMeans(lane, messages, size, candidates, i);
      }
    }
    hide CandidateAccepted, Fits, Repeats, Chunks;
  }

  lemma {:induction false} OneMore(a: nat, b: nat, size: nat)
    requires a < b
    ensures a * size + size <= b * size
    decreases b
  {
    assert b * size == (b - 1) * size + size;
    if a < b - 1 {
      OneMore(a, b - 1, size);
    }
  }

  lemma SameCount(a: nat, b: nat, size: nat, n: nat)
    requires size > 0 && JustEnough(a, size, n)
    ensures JustEnough(b, size, n) <==> a == b
  {
    if a < b {
      OneMore(a, b, size);
    } else if b < a {
      OneMore(b, a, size);
    }
  }

  /**
   An accepted deep request covers the transcript: its candidates' sources are the session's message
   ids in order, each once; and in either lane no candidate is less private than a source.
   */
  lemma AcceptedCovers(lane: Lane, messages: seq<Message>, forgotten: set<MessageId>, size: nat, candidates: seq<Candidate>)
    requires Accepted(lane, messages, forgotten, size, candidates)
    ensures lane.Deep? ==> Sources(candidates) == MessageIds(messages)
    ensures lane.Deep? ==>
              && size > 0 && |Chunks(messages, size)| == |candidates|
              && forall i :: 0 <= i < |candidates| ==> candidates[i].content == Chunks(messages, size)[i].content
    ensures forall i, k :: 0 <= i < |candidates| && 0 <= k < |messages| && messages[k].id in candidates[i].sources ==>
              NoWeaker(candidates[i].privacy, messages[k].privacy)
  {
    if lane.Deep? {
      var chunks := Chunks(messages, size);
      forall i | 0 <= i < |candidates|
        ensures candidates[i].content == chunks[i].content && candidates[i].sources == chunks[i].ids
      {
        assert CandidateAccepted(lane, messages, chunks, candidates, i);
      }
      SourcesAreChunkIds(candidates, chunks);
      ChunksCover(messages, size);
    }
    forall i, k | 0 <= i < |candidates| && 0 <= k < |messages| && messages[k].id in candidates[i].sources
      ensures NoWeaker(candidates[i].privacy, messages[k].privacy)
    {
      assert CandidateAccepted(lane, messages, ChunksFor(lane, messages, size), candidates, i);
      assert KnownAndGuarded(messages, candidates[i], messages[k].id);
      var m :| m in messages && m.id == messages[k].id && PrivacyRank(m.privacy) <= PrivacyRank(candidates[i].privacy);
      RanksAgree(candidates[i].privacy, m.privacy);
    }
  }
}
