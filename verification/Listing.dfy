/**
 The rows that a listing shows: the query's own masks for status and preview, its filters, and how they
 compare with what a read of the same record gives. Times are shown by an order-preserving format.
 */
module Listing {
  import opened Wrappers
  import opened Memories
  import opened SortDedup
  import F = Forget
  import P = Paging

  datatype Summary = Summary(
    session: Option<string>, kind: string, privacy: Privacy, status: Status, preview: string, tags: seq<string>, entities: seq<string>)

  /** An absent or empty list does not filter. */
  datatype Filters = Filters(
    kinds: set<string>, session: Option<string>, tagsAny: set<string>, tagsAll: set<string>, entitiesAny: set<string>,
    entitiesAll: set<string>, since: Option<string>, before: Option<string>, statuses: set<Status>)

  const PREVIEW: nat := 256

  const REDACTED := "[redacted]"

  function Left(s: string, n: nat): string {
    if |s| <= n then s else s[..n]
  }

  // ---- LIKE ----

  predicate Like(pattern: string, text: string)
    decreases |pattern| + |text|
  {
    if pattern == "" then text == ""
    else if pattern[0] == '%' then Like(pattern[1..], text) || (text != "" && Like(pattern, text[1..]))
    else text != "" && (pattern[0] == '_' || pattern[0] == text[0]) && Like(pattern[1..], text[1..])
  }

  predicate Plain(s: string) {
    '%' !in s && '_' !in s
  }

  /** A name without wild cards matches itself only. */
  lemma {:induction false} PlainLike(name: string, text: string)
    requires Plain(name)
    ensures Like(name, text) <==> name == text
  {
    if name != "" && text != "" {
      PlainLike(name[1..], text[1..]);
      assert name == [name[0]] + name[1..] && text == [text[0]] + text[1..];
    }
  }

  lemma {:induction false} LikeAfter(literal: string, pattern: string, text: string)
    requires Plain(literal)
    ensures Like(literal + pattern, literal + text) <==> Like(pattern, text)
  {
    if literal == "" {
      assert literal + pattern == pattern && literal + text == text;
    } else {
      LikeAfter(literal[1..], pattern, text);
      assert (literal + pattern)[1..] == literal[1..] + pattern && (literal + text)[1..] == literal[1..] + text;
    }
  }

  /** A text without a slash matches no pattern with one. */
  lemma {:induction false} NoSlash(pattern: string, text: string)
    requires '/' !in text
    ensures !Like(pattern + "/%", text)
    decreases |pattern| + |text|
  {
    if pattern == "" {
      assert (pattern + "/%")[0] == '/';
    } else {
      assert (pattern + "/%")[1..] == pattern[1..] + "/%";
      if pattern[0] == '%' {
        NoSlash(pattern[1..], text);
        if text != "" {
          NoSlash(pattern, text[1..]);
        }
      } else if text != "" {
        NoSlash(pattern[1..], text[1..]);
      }
    }
  }

  lemma {:induction false} LikeToSlash(pattern: string, name: string, rest: string)
    requires '/' !in pattern && '/' !in name && '/' !in rest
    ensures Like(pattern + "/%", name + "/" + rest) <==> Like(pattern, name)
    decreases |pattern| + |name|
  {
    var p, t := pattern + "/%", name + "/" + rest;
    if pattern == "" {
      assert p == "/%" && p[1..] == "%";
      if name == "" {
        assert t[1..] == rest;
        Anything(rest);
      } else {
        assert t[0] == name[0];
      }
    } else {
      assert p[1..] == pattern[1..] + "/%" && p[0] == pattern[0];
      if name == "" {
        assert t[0] == '/' && t[1..] == rest;
        NoSlash(pattern, rest);
        NoSlash(pattern[1..], rest);
        LikeToSlash(pattern[1..], name, rest);
      } else {
        assert t[1..] == name[1..] + "/" + rest && t[0] == name[0];
        LikeToSlash(pattern[1..], name, rest);
        LikeToSlash(pattern[1..], name[1..], rest);
        LikeToSlash(pattern, name[1..], rest);
      }
    }
  }

  lemma {:induction false} Anything(text: string)
    ensures Like("%", text)
  {
    if text == "" {
      assert Like("%"[1..], text);
    } else {
      Anything(text[1..]);
    }
  }

  /** The query's key pattern decides by the users' names alone, the row's own taken as a pattern. */
  lemma KeyLike(user: User, other: User, source: Source)
    requires '/' !in user && '/' !in other && '/' !in source
    ensures Like("forgotten-source/" + user + "/%", "forgotten-source/" + other + "/" + source) <==> Like(user, other)
  {
    LikeAfter("forgotten-source/", user + "/%", other + "/" + source);
    LikeToSlash(user, other, source);
    assert "forgotten-source/" + (user + "/%") == "forgotten-source/" + user + "/%";
    assert "forgotten-source/" + (other + "/" + source) == "forgotten-source/" + other + "/" + source;
  }

  lemma {:induction false} LikeItself(name: string)
    ensures Like(name, name)
  {
    if name != "" {
      LikeItself(name[1..]);
      if name[0] == '%' {
        LikeMore(name[1..], name);
      }
    }
  }

  /** A leading % matches one more character. */
  lemma LikeMore(pattern: string, name: string)
    requires name != "" && name[0] == '%' && name[1..] == pattern && Like(pattern, name[1..])
    ensures Like(name, name)
  {
    assert Like(name, name[1..]);
  }

  // ---- The masks ----

  /** What forgetting stores under a source's key. */
  function Fields(t: Tombstone): map<string, string> {
    map["memory_id" := t.memory, "redact" := if t.redact then "true" else "false"]
  }

  /** value->>name */
  function Text(fields: map<string, string>, name: string): Option<string> {
    if name in fields then Some(fields[name]) else None
  }

  /** The query finds this tombstone for the record. */
  predicate Hits<E>(db: Db<E>, r: Record, k: (User, Source)) {
    k in db.tombstones && Like(r.user, k.0) && k.1 in r.sources
  }

  function StatusShown<E>(db: Db<E>, r: Record): Status {
    if r.status.Active? && exists k :: k in db.tombstones && Hits(db, r, k) then SoftDeleted else r.status
  }

  function PreviewShown<E>(db: Db<E>, r: Record): string {
    if exists k :: k in db.tombstones && Hits(db, r, k) && Text(Fields(db.tombstones[k]), "status") == Some("redacted") then REDACTED
    else Left(r.content, PREVIEW)
  }

  /** A source of the record was forgotten with redaction. */
  predicate RedactMarked<E>(db: Db<E>, r: Record) {
    exists source :: source in r.sources && (r.user, source) in db.tombstones && db.tombstones[(r.user, source)].redact
  }

  /** The only tombstones on the record's sources are those of other users whose names the user's own matches as a pattern. */
  predicate Mistaken<E>(db: Db<E>, r: Record) {
    r.status.Active? && !Tombstoned(db, r.user, r.sources) && exists k :: k in db.tombstones && Hits(db, r, k)
  }

  /** The mask asks for a field that no tombstone has. */
  lemma PreviewNeverMasked<E>(db: Db<E>, r: Record)
    ensures PreviewShown(db, r) == Left(r.content, PREVIEW)
  {
    assert "status" != "memory_id" && "status"[0] != "redact"[0];
  }

  lemma LeftRedacted(content: string)
    ensures Left(content, PREVIEW) == REDACTED <==> content == REDACTED
  {
  }

  /** The preview is that of the record as it is read if and only if none of its sources was forgotten with redaction, or there is nothing left to redact. */
  lemma PreviewAgreesIff<E>(db: Db<E>, r: Record)
    ensures PreviewShown(db, r) == Left(F.Protect(db, r).content, PREVIEW) <==> (RedactMarked(db, r) ==> r.content == REDACTED)
  {
    PreviewNeverMasked(db, r);
    LeftRedacted(r.content);
    ReadContent(db, r);
  }

  lemma ReadContent<E>(db: Db<E>, r: Record)
    ensures F.Protect(db, r).content == if RedactMarked(db, r) then REDACTED else r.content
    ensures F.Protect(db, r).status == if r.status.Active? && Tombstoned(db, r.user, r.sources) then SoftDeleted else r.status
  {
  }

  lemma OwnHits<E>(db: Db<E>, r: Record)
    ensures Tombstoned(db, r.user, r.sources) ==> exists k :: k in db.tombstones && Hits(db, r, k)
  {
    if Tombstoned(db, r.user, r.sources) {
      var source :| source in r.sources && (r.user, source) in db.tombstones;
      LikeItself(r.user);
      assert Hits(db, r, (r.user, source));
    }
  }

  /** The status is that of the record as it is read if and only if it is not mistaken for another user's. */
  lemma StatusAgreesIff<E>(db: Db<E>, r: Record)
    ensures StatusShown(db, r) == F.Protect(db, r).status <==> !Mistaken(db, r)
  {
    hide Hits;
    OwnHits(db, r);
    ReadContent(db, r);
  }

  /** Users without wild cards in their names are never mistaken. */
  lemma PlainNeverMistaken<E>(db: Db<E>, r: Record)
    requires Plain(r.user)
    ensures !Mistaken(db, r)
  {
    forall k | k in db.tombstones && Hits(db, r, k)
      ensures Tombstoned(db, r.user, r.sources)
    {
      PlainLike(r.user, k.0);
      assert k == (r.user, k.1);
    }
  }

  // ---- The listing ----

  function Shown<E>(db: Db<E>, format: Stamp -> string, row: Row): P.Row<Summary> {
    var r := row.record;
    P.Row(r.id, format(row.createdAt), Summary(r.session, r.kind, r.privacy, StatusShown(db, r), PreviewShown(db, r), r.tags, r.entities))
  }

  function Project<E>(db: Db<E>, format: Stamp -> string, table: seq<Row>): seq<P.Row<Summary>> {
    seq(|table|, i requires 0 <= i < |table| => Shown(db, format, table[i]))
  }

  /** Without a scope, everything but restricted memories. */
  function Scope(asked: set<Privacy>): set<Privacy> {
    if asked == {} then {Private, Shared, Sensitive} else asked
  }

  predicate Selects(asked: set<Privacy>, f: Filters, r: P.Row<Summary>) {
    && r.data.privacy in Scope(asked)
    && (f.kinds != {} ==> r.data.kind in f.kinds)
    && (f.session.Some? ==> r.data.session == f.session)
    && (f.tagsAny != {} ==> exists tag :: tag in f.tagsAny && tag in r.data.tags)
    && (forall tag :: tag in f.tagsAll ==> tag in r.data.tags)
    && (f.entitiesAny != {} ==> exists entity :: entity in f.entitiesAny && entity in r.data.entities)
    && (forall entity :: entity in f.entitiesAll ==> entity in r.data.entities)
    && (f.since.Some? ==> StringLeq(f.since.value, r.createdAt))
    && (f.before.Some? ==> !StringLeq(f.before.value, r.createdAt))
    && (if f.statuses == {} then r.data.status.Active? else r.data.status in f.statuses)
  }

  /** A listed row is the record's own, with its creation time as text; only status and preview go through a mask. */
  lemma ShownMeans<E>(db: Db<E>, format: Stamp -> string, row: Row)
    ensures var shown := Shown(db, format, row);
            && shown.id == row.record.id && shown.createdAt == format(row.createdAt) && shown.data.session == row.record.session
            && shown.data.kind == row.record.kind && shown.data.privacy == row.record.privacy
            && shown.data.tags == row.record.tags && shown.data.entities == row.record.entities
            && |shown.data.preview| <= 256 && shown.data.preview <= row.record.content
            && (|shown.data.preview| < 256 ==> shown.data.preview == row.record.content)
  {
    PreviewNeverMasked(db, row.record);
  }

  predicate Overlap(asked: set<string>, values: seq<string>) {
    exists i :: 0 <= i < |values| && values[i] in asked
  }

  /** Each filter by itself: what is not asked for does not filter, and without a status only active memories are listed. */
  lemma SelectsMeans(asked: set<Privacy>, f: Filters, r: P.Row<Summary>)
    ensures Selects(asked, f, r) <==>
              (&& (if asked == {} then r.data.privacy != Restricted else r.data.privacy in asked)
               && (f.kinds == {} || r.data.kind in f.kinds)
               && (f.session.None? || r.data.session == f.session)
               && (f.tagsAny == {} || Overlap(f.tagsAny, r.data.tags)) && (forall tag :: tag in f.tagsAll ==> tag in r.data.tags)
               && (f.entitiesAny == {} || Overlap(f.entitiesAny, r.data.entities)) && (forall entity :: entity in f.entitiesAll ==> entity in r.data.entities)
               && (f.since.None? || f.since.value == r.createdAt || StringLeq(f.since.value, r.createdAt))
               && (f.before.None? || (r.createdAt != f.before.value && StringLeq(r.createdAt, f.before.value)))
               && (if f.statuses == {} then r.data.status == Active else r.data.status in f.statuses))
  {
    forall values: seq<string>, asked: set<string>
      ensures (exists value :: value in asked && value in values) <==> Overlap(asked, values)
    {
      OverlapMeans(values, asked);
    }
    if f.since.Some? {
      LeqItself(r.createdAt);
    }
    if f.before.Some? {
      StringTotal(f.before.value, r.createdAt);
      LeqItself(r.createdAt);
    }
    hide Overlap, StringLeq;
  }

  lemma OverlapMeans(values: seq<string>, asked: set<string>)
    ensures (exists value :: value in asked && value in values) <==> Overlap(asked, values)
  {
    if value :| value in asked && value in values {
      var i :| 0 <= i < |values| && values[i] == value;
    }
    if Overlap(asked, values) {
      var i :| 0 <= i < |values| && values[i] in asked;
      assert values[i] in values;
    }
  }

  lemma {:induction false} LeqItself(s: string)
    ensures StringLeq(s, s)
  {
    if s != [] {
      LeqItself(s[1..]);
    }
  }

  /** The loop over the query's rows: each filter that fails goes on with the next row. */
  method Candidates(rows: seq<P.Row<Summary>>, asked: set<Privacy>, f: Filters) returns (kept: seq<P.Row<Summary>>)
    ensures kept == P.Matching(rows, r => Selects(asked, f, r))
  {
    kept := [];
    for i := 0 to |rows|
      invariant kept == P.Matching(rows[..i], r => Selects(asked, f, r))
    {
      var r := rows[i];
      MatchingNext(rows, i, asked, f);
      SelectsMeans(asked, f, r);
      hide P.Matching, Selects;
      if r.data.privacy !in (if asked == {} then {Private, Shared, Sensitive} else asked) {
        continue;
      }
      if f.kinds != {} && r.data.kind !in f.kinds {
        continue;
      }
      if f.session.Some? && r.data.session != f.session {
        continue;
      }
      if f.tagsAny != {} && !Overlap(f.tagsAny, r.data.tags) {
        continue;
      }
      if exists tag :: tag in f.tagsAll && tag !in r.data.tags {
        continue;
      }
      if f.entitiesAny != {} && !Overlap(f.entitiesAny, r.data.entities) {
        continue;
      }
      if exists entity :: entity in f.entitiesAll && entity !in r.data.entities {
        continue;
      }
      if f.since.Some? && f.since.value != r.createdAt && !StringLeq(f.since.value, r.createdAt) {
        continue;
      }
      if f.before.Some? && (r.createdAt == f.before.value || !StringLeq(r.createdAt, f.before.value)) {
        continue;
      }
      if r.data.status !in (if f.statuses == {} then {Active} else f.statuses) {
        continue;
      }
      kept := kept + [r];
    }
    assert rows[..|rows|] == rows;
  }

  lemma MatchingNext(rows: seq<P.Row<Summary>>, i: nat, asked: set<Privacy>, f: Filters)
    requires i < |rows|
    ensures P.Matching(rows[..i + 1], r => Selects(asked, f, r)) ==
            P.Matching(rows[..i], r => Selects(asked, f, r)) + if Selects(asked, f, rows[i]) then [rows[i]] else []
  {
    assert rows[..i + 1][..i] == rows[..i];
  }

  const UNFILTERED := Filters({}, None, {}, {}, {}, {}, None, None, {})

  /** The table holds exactly the user's rows. */
  predicate Tables<E>(db: Db<E>, user: User, table: seq<Row>) {
    && (forall i :: 0 <= i < |table| ==> table[i].record.id in db.memories && db.memories[table[i].record.id] == table[i] && table[i].record.user == user)
    && (forall id :: id in db.memories && db.memories[id].record.user == user ==> db.memories[id] in table)
  }

  predicate Serves(walk: seq<P.Row<Summary>>, id: Id) {
    exists i :: 0 <= i < |walk| && walk[i].id == id
  }

  lemma Unfiltered<E>(db: Db<E>, format: Stamp -> string, row: Row)
    requires Keyed(db) && row.record.id in db.memories && db.memories[row.record.id] == row
    ensures Selects({}, UNFILTERED, Shown(db, format, row)) <==>
              Visible(db, row.record.user, row.record.id) && row.record.privacy != Restricted && !Mistaken(db, row.record)
  {
    hide Hits;
    OwnHits(db, row.record);
  }

  /**
   Following a listing without filters shows exactly the memories that a read would return, restricted
   ones apart, but for those that are mistaken for another user's.
   */
  lemma ListingShowsReadable<E>(db: Db<E>, format: Stamp -> string, user: User, table: seq<Row>, fingerprint: string, limit: nat, pages: nat, id: Id)
    requires Keyed(db) && Tables(db, user, table) && P.Descending(Project(db, format, table)) && 0 < limit <= 100
    requires pages >= P.PageCount(|P.Matching(Project(db, format, table), r => Selects({}, UNFILTERED, r))|, limit)
    ensures var walk := P.Items(P.Follow(Project(db, format, table), r => Selects({}, UNFILTERED, r), fingerprint, limit, None, pages));
            Serves(walk, id) <==>
              Visible(db, user, id) && db.memories[id].record.privacy != Restricted && !Mistaken(db, db.memories[id].record)
  {
    hide Selects, Visible, Mistaken, P.Matching, P.Follow, P.Items, P.PageCount, StatusShown, PreviewShown;
    var rows, matches := Project(db, format, table), r => Selects({}, UNFILTERED, r);
    P.PagesAreExact(rows, matches, fingerprint, limit, pages);
    P.MatchingMeans(rows, matches);
    var walk := P.Items(P.Follow(rows, matches, fingerprint, limit, None, pages));
    if Serves(walk, id) {
      var i :| 0 <= i < |walk| && walk[i].id == id;
      assert walk[i] in rows && matches(walk[i]);
      var j :| 0 <= j < |rows| && rows[j] == walk[i];
      Unfiltered(db, format, table[j]);
    }
    VisibleRow(db, user, id);
    if Visible(db, user, id) && db.memories[id].record.privacy != Restricted && !Mistaken(db, db.memories[id].record) {
      var j :| 0 <= j < |table| && table[j] == db.memories[id];
      Unfiltered(db, format, table[j]);
      assert rows[j] in rows && matches(rows[j]);
      assert rows[j] in walk;
      var i :| 0 <= i < |walk| && walk[i] == rows[j];
      assert walk[i].id == id;
    }
  }

  lemma VisibleRow<E>(db: Db<E>, user: User, id: Id)
    requires Keyed(db)
    ensures Visible(db, user, id) ==> id in db.memories && db.memories[id].record.user == user && db.memories[id].record.id == id
  {
  }

  // ---- Concrete listings ----

  function OneRow(r: Record, k: (User, Source)): Db<int> {
    Db(map[r.id := Row(r, r.createdAt)], map[k := Tombstone("m", true)], map[], map[], 0)
  }

  /** A memory whose source was forgotten with redaction is read as redacted, and listed with what it says. */
  lemma UnmaskedPreviewExample(r: Record, format: Stamp -> string)
    requires r.status.Active? && r.sources == ["x"] && r.privacy.Private? && r.content != REDACTED
    ensures var db := OneRow(r, (r.user, "x")); var shown := Shown(db, format, db.memories[r.id]);
            && F.Protect(db, r).content == REDACTED
            && Selects({}, UNFILTERED.(statuses := {SoftDeleted}), shown)
            && shown.data.preview == Left(r.content, PREVIEW) != REDACTED
  {
    var db := OneRow(r, (r.user, "x"));
    assert "x" in r.sources;
    ReadContent(db, r);
    PreviewNeverMasked(db, r);
    LeftRedacted(r.content);
    assert RedactMarked(db, r) && Tombstoned(db, r.user, r.sources);
    OwnHits(db, r);
  }

  /** A readable memory of the user a_b is left out of the listing for a tombstone of the user axb. */
  lemma MistakenExample(r: Record, format: Stamp -> string)
    requires r.user == "a_b" && r.status.Active? && r.sources == ["x"]
    ensures var db := OneRow(r, ("axb", "x"));
            && Visible(db, r.user, r.id) && Mistaken(db, r)
            && !Selects({}, UNFILTERED, Shown(db, format, db.memories[r.id]))
  {
    var db := OneRow(r, ("axb", "x"));
    assert "x" in r.sources && "axb"[1] != "a_b"[1];
    MatchesAxb();
    assert Hits(db, r, ("axb", "x"));
  }

  lemma MatchesAxb()
    ensures Like("a_b", "axb")
  {
    assert "a_b"[1..] == "_b" && "axb"[1..] == "xb" && "_b"[1..] == "b" && "xb"[1..] == "b" && "b"[1..] == "";
    assert Like("", "") && Like("b", "b") && Like("_b", "xb");
  }
}
