/**
 Keyset paging over one user's memories, newest first. A cursor names the last row served and carries
 the fingerprint of scope and filters, kept as its pre-image; rows may come and go between two pages.
 The order of the database and the comparison of the adapter are the same total order on (created_at, id).
 */
module Paging {
  import opened Wrappers
  import opened SortDedup

  type Position = (string, string)

  datatype Row<T> = Row(id: string, createdAt: string, data: T)

  datatype Cursor = Cursor(version: nat, createdAt: string, id: string, fingerprint: string)

  datatype Page<T> = Page(items: seq<Row<T>>, next: Option<Cursor>)

  datatype QueryError = InvalidLimit | UnsupportedVersion | ScopeMismatch

  function PositionOf<T>(r: Row<T>): Position {
    (r.createdAt, r.id)
  }

  predicate Less(a: Position, b: Position) {
    a != b && if a.0 != b.0 then StringLeq(a.0, b.0) else StringLeq(a.1, b.1)
  }

  function EncodeCursor(p: Position, fingerprint: string): Cursor {
    Cursor(1, p.0, p.1, fingerprint)
  }

  function DecodeCursor(c: Cursor, expected: string): Result<Position, QueryError> {
    if c.version != 1 then Failure(UnsupportedVersion)
    else if c.fingerprint != expected then Failure(ScopeMismatch)
    else Success((c.createdAt, c.id))
  }

  predicate Descending<T>(rows: seq<Row<T>>) {
    forall i, j :: 0 <= i < j < |rows| ==> Less(PositionOf(rows[j]), PositionOf(rows[i]))
  }

  function Matching<T>(rows: seq<Row<T>>, matches: Row<T> -> bool): seq<Row<T>> {
    if rows == [] then []
    else
      var n := |rows| - 1;
      Matching(rows[..n], matches) + if matches(rows[n]) then [rows[n]] else []
  }

  /** The rows a cursor leaves to serve. */
  function Remaining<T>(rows: seq<Row<T>>, after: Option<Position>): seq<Row<T>> {
    if after.None? then rows
    else if rows == [] then []
    else
      var n := |rows| - 1;
      Remaining(rows[..n], after) + if Less(PositionOf(rows[n]), after.value) then [rows[n]] else []
  }

  function PageAfter<T>(listing: seq<Row<T>>, after: Option<Position>, limit: nat, fingerprint: string): Page<T>
    requires limit > 0
  {
    var left := Remaining(listing, after);
    if |left| > limit then Page(left[..limit], Some(EncodeCursor(PositionOf(left[limit - 1]), fingerprint)))
    else Page(left, None)
  }

  function Query<T>(rows: seq<Row<T>>, matches: Row<T> -> bool, fingerprint: string, limit: nat, cursor: Option<Cursor>): Result<Page<T>, QueryError> {
    if limit == 0 || limit > 100 then Failure(InvalidLimit)
    else if cursor.None? then Success(PageAfter(Matching(rows, matches), None, limit, fingerprint))
    else
      var after := DecodeCursor(cursor.value, fingerprint);
      if after.Failure? then Failure(after.error)
      else Success(PageAfter(Matching(rows, matches), Some(after.value), limit, fingerprint))
  }

  /** Filter, retain what lies beyond the cursor, take a page. */
  method QueryMemories<T>(rows: seq<Row<T>>, matches: Row<T> -> bool, fingerprint: string, limit: nat, cursor: Option<Cursor>)
    returns (page: Result<Page<T>, QueryError>)
    ensures page == Query(rows, matches, fingerprint, limit, cursor)
  {
    if limit == 0 || limit > 100 {
      return Failure(InvalidLimit);
    }
    var after: Option<Position> := None;
    if cursor.Some? {
      var decoded := DecodeCursor(cursor.value, fingerprint);
      if decoded.Failure? {
        return Failure(decoded.error);
      }
      after := Some(decoded.value);
    }
    hide Less;
    var candidates: seq<Row<T>> := [];
    for i := 0 to |rows|
      invariant candidates == Matching(rows[..i], matches)
    {
      assert rows[..i + 1][..i] == rows[..i];
      if !matches(rows[i]) {
        continue;
      }
      candidates := candidates + [rows[i]];
    }
    assert rows[..|rows|] == rows;
    if after.Some? {
      candidates := Retain(candidates, after.value);
    }
    var items := if |candidates| > limit then candidates[..limit] else candidates;
    var next := if |candidates| > limit then Some(EncodeCursor(PositionOf(items[|items| - 1]), fingerprint)) else None;
    return Success(Page(items, next));
  }

  method Retain<T>(candidates: seq<Row<T>>, after: Position) returns (kept: seq<Row<T>>)
    ensures kept == Remaining(candidates, Some(after))
  {
    kept := [];
    for i := 0 to |candidates|
      invariant kept == Remaining(candidates[..i], Some(after))
    {
      assert candidates[..i + 1][..i] == candidates[..i];
      if Less(PositionOf(candidates[i]), after) {
        kept := kept + [candidates[i]];
      }
    }
    assert candidates[..|candidates|] == candidates;
  }

  // ---- The order ----

  lemma LessTotal(a: Position, b: Position)
    ensures Less(a, b) || Less(b, a) || a == b
    ensures !(Less(a, b) && Less(b, a))
  {
    StringTotal(a.0, b.0);
    StringTotal(a.1, b.1);
  }

  lemma LessTransitive(a: Position, b: Position, c: Position)
    requires Less(a, b) && Less(b, c)
    ensures Less(a, c)
  {
    StringTotal(a.0, b.0);
    StringTotal(a.1, b.1);
    if a.0 != b.0 && b.0 != c.0 {
      StringTransitive(a.0, b.0, c.0);
    } else if a.0 == b.0 == c.0 {
      StringTransitive(a.1, b.1, c.1);
    }
  }

  // ---- Filtering keeps the order ----

  lemma {:induction false} MatchingMeans<T(!new)>(rows: seq<Row<T>>, matches: Row<T> -> bool)
    requires Descending(rows)
    ensures Descending(Matching(rows, matches))
    ensures forall r :: r in Matching(rows, matches) <==> r in rows && matches(r)
  {
    hide Less;
    if rows != [] {
      var n := |rows| - 1;
      MatchingMeans(rows[..n], matches);
      assert rows == rows[..n] + [rows[n]];
      var front := Matching(rows[..n], matches);
      forall i | 0 <= i < |front|
        ensures Less(PositionOf(rows[n]), PositionOf(front[i]))
      {
        assert front[i] in front && front[i] in rows[..n];
        var j :| 0 <= j < n && rows[j] == front[i];
      }
    }
  }

  lemma {:induction false} NothingRemains<T(!new)>(listing: seq<Row<T>>, p: Position)
    requires forall i :: 0 <= i < |listing| ==> !Less(PositionOf(listing[i]), p)
    ensures Remaining(listing, Some(p)) == []
  {
    hide Less;
    if listing != [] {
      NothingRemains(listing[..|listing| - 1], p);
    }
  }

  lemma FrontDescends<T(!new)>(listing: seq<Row<T>>, n: nat)
    requires Descending(listing) && n <= |listing|
    ensures Descending(listing[..n])
  {
    hide Less;
  }

  lemma LastLess<T(!new)>(listing: seq<Row<T>>, p: Position, i: nat)
    requires Descending(listing) && i < |listing| && Less(PositionOf(listing[i]), p)
    ensures Less(PositionOf(listing[|listing| - 1]), p)
  {
    hide Less;
    if i < |listing| - 1 {
      LessTransitive(PositionOf(listing[|listing| - 1]), PositionOf(listing[i]), p);
    }
  }

  lemma NoneLess<T(!new)>(listing: seq<Row<T>>, p: Position)
    requires Descending(listing) && (listing != [] ==> !Less(PositionOf(listing[|listing| - 1]), p))
    ensures Remaining(listing, Some(p)) == []
  {
    hide Less, Remaining;
    forall j | 0 <= j < |listing| - 1
      ensures !Less(PositionOf(listing[j]), p)
    {
      NotLessBefore(listing, p, j, |listing| - 1);
    }
    NothingRemains(listing, p);
  }

  /** In a descending listing, what lies beyond a position is a suffix. */
  lemma {:induction false} RemainingIsSuffix<T(!new)>(listing: seq<Row<T>>, p: Position, i: nat)
    requires Descending(listing) && i <= |listing|
    requires i > 0 ==> !Less(PositionOf(listing[i - 1]), p)
    requires i < |listing| ==> Less(PositionOf(listing[i]), p)
    ensures Remaining(listing, Some(p)) == listing[i..]
  {
    hide Less, Descending, PositionOf;
    if i == |listing| {
      NoneLess(listing, p);
    } else {
      var n := |listing| - 1;
      LastLess(listing, p, i);
      FrontDescends(listing, n);
      RemainingIsSuffix(listing[..n], p, i);
      assert listing[i..] == listing[..n][i..] + [listing[n]];
    }
  }

  lemma NotLessBefore<T(!new)>(listing: seq<Row<T>>, p: Position, i: nat, j: nat)
    requires Descending(listing) && i < j < |listing| && !Less(PositionOf(listing[j]), p)
    ensures !Less(PositionOf(listing[i]), p)
  {
    hide Less;
    if Less(PositionOf(listing[i]), p) {
      LessTransitive(PositionOf(listing[j]), PositionOf(listing[i]), p);
    }
  }

  // ---- Cursors ----

  /** A cursor is accepted exactly by the scope and filters it was made for, and gives the position back. */
  lemma CursorRoundTrip(p: Position, made: string, expected: string)
    ensures DecodeCursor(EncodeCursor(p, made), expected) == if made == expected then Success(p) else Failure(ScopeMismatch)
  {
  }

  function CursorAt(after: Option<Position>, fingerprint: string): Option<Cursor> {
    if after.None? then None else Some(EncodeCursor(after.value, fingerprint))
  }

  /** A query with a cursor of its own scope and filters serves the page after the cursor's position, and with any other cursor nothing. */
  lemma QueryFrom<T>(rows: seq<Row<T>>, matches: Row<T> -> bool, limit: nat, after: Option<Position>, made: string, expected: string)
    requires 0 < limit <= 100
    ensures Query(rows, matches, expected, limit, CursorAt(after, made)) ==
            if made == expected || after.None? then Success(PageAfter(Matching(rows, matches), after, limit, expected)) else Failure(ScopeMismatch)
  {
    hide PageAfter, Matching;
    if after.Some? {
      CursorRoundTrip(after.value, made, expected);
    }
  }

  lemma NextCursor<T>(listing: seq<Row<T>>, after: Option<Position>, limit: nat, fingerprint: string)
    requires limit > 0
    ensures var page := PageAfter(listing, after, limit, fingerprint);
            page.next.Some? ==> page.items != [] && page.next == CursorAt(Some(PositionOf(page.items[|page.items| - 1])), fingerprint)
  {
  }

  // ---- Following cursors over unchanging rows ----

  /** A caller that queries with each page's cursor, for at most so many pages. */
  function Follow<T>(rows: seq<Row<T>>, matches: Row<T> -> bool, fingerprint: string, limit: nat, cursor: Option<Cursor>, pages: nat): seq<Page<T>>
    decreases pages
  {
    if pages == 0 then []
    else
      match Query(rows, matches, fingerprint, limit, cursor)
      case Failure(_) => []
      case Success(page) =>
        [page] + if page.next.None? then [] else Follow(rows, matches, fingerprint, limit, page.next, pages - 1)
  }

  function Items<T>(pages: seq<Page<T>>): seq<Row<T>>
    decreases |pages|
  {
    if pages == [] then [] else pages[0].items + Items(pages[1..])
  }

  function PageCount(n: nat, limit: nat): nat
    requires limit > 0
  {
    if n <= limit then 1 else 1 + PageCount(n - limit, limit)
  }

  /** As many pages as the rows need and no more, but at least one. */
  lemma {:induction false} PageCountIsCeiling(n: nat, limit: nat)
    requires limit > 0
    ensures n <= PageCount(n, limit) * limit
    ensures PageCount(n, limit) > 1 ==> (PageCount(n, limit) - 1) * limit < n
  {
    if n > limit {
      PageCountIsCeiling(n - limit, limit);
      var rest := PageCount(n - limit, limit);
      assert (rest + 1) * limit == rest * limit + limit;
      assert rest * limit == (rest - 1) * limit + limit;
      assert rest >= 1;
      assert rest == 1 ==> rest * limit == limit;
    }
  }

  function Before<T>(listing: seq<Row<T>>, i: nat): Option<Position>
    requires i <= |listing|
  {
    if i == 0 then None else Some(PositionOf(listing[i - 1]))
  }

  /** The page after the first `i` rows holds the next ones, and its cursor points behind them. */
  lemma PageFrom<T(!new)>(rows: seq<Row<T>>, matches: Row<T> -> bool, fingerprint: string, limit: nat, i: nat)
    requires Descending(Matching(rows, matches)) && i <= |Matching(rows, matches)| && 0 < limit <= 100
    ensures var listing := Matching(rows, matches);
            Query(rows, matches, fingerprint, limit, CursorAt(Before(listing, i), fingerprint)) ==
            Success(if |listing| - i > limit then Page(listing[i..i + limit], CursorAt(Before(listing, i + limit), fingerprint))
                    else Page(listing[i..], None))
    ensures var listing := Matching(rows, matches);
            |listing| - i > limit ==> CursorAt(Before(listing, i + limit), fingerprint).Some? && listing[i..] == listing[i..i + limit] + listing[i + limit..]
  {
    hide Less, Remaining, Query, Matching, Descending;
    var listing := Matching(rows, matches);
    Unserved(listing, i);
    QueryFrom(rows, matches, limit, Before(listing, i), fingerprint, fingerprint);
    if |listing| - i > limit {
      assert listing[i..][..limit] == listing[i..i + limit];
      assert listing[i..][limit - 1] == listing[i + limit - 1];
    }
  }

  lemma {:induction false} FollowFrom<T(!new)>(rows: seq<Row<T>>, matches: Row<T> -> bool, fingerprint: string, limit: nat, i: nat, pages: nat)
    requires Descending(Matching(rows, matches)) && i <= |Matching(rows, matches)| && 0 < limit <= 100
    requires pages >= PageCount(|Matching(rows, matches)| - i, limit)
    ensures var listing := Matching(rows, matches);
            var walked := Follow(rows, matches, fingerprint, limit, CursorAt(Before(listing, i), fingerprint), pages);
            && Items(walked) == listing[i..]
            && |walked| == PageCount(|listing| - i, limit)
            && walked[|walked| - 1].next.None?
    decreases |Matching(rows, matches)| - i
  {
    hide Query, Matching, Descending, CursorAt, Before, Follow, Items;
    var listing := Matching(rows, matches);
    PageFrom(rows, matches, fingerprint, limit, i);
    if |listing| - i > limit {
      FollowFrom(rows, matches, fingerprint, limit, i + limit, pages - 1);
      NextPages(rows, matches, fingerprint, limit, CursorAt(Before(listing, i), fingerprint), pages);
    } else {
      LastPage(rows, matches, fingerprint, limit, CursorAt(Before(listing, i), fingerprint), pages);
    }
  }

  lemma NextPages<T>(rows: seq<Row<T>>, matches: Row<T> -> bool, fingerprint: string, limit: nat, cursor: Option<Cursor>, pages: nat)
    requires pages > 0 && Query(rows, matches, fingerprint, limit, cursor).Success? && Query(rows, matches, fingerprint, limit, cursor).value.next.Some?
    ensures var page := Query(rows, matches, fingerprint, limit, cursor).value;
            var rest, walked := Follow(rows, matches, fingerprint, limit, page.next, pages - 1), Follow(rows, matches, fingerprint, limit, cursor, pages);
            && Items(walked) == page.items + Items(rest) && |walked| == 1 + |rest|
            && (rest != [] ==> walked[|walked| - 1] == rest[|rest| - 1])
  {
    hide Query;
    var page := Query(rows, matches, fingerprint, limit, cursor).value;
    var rest, walked := Follow(rows, matches, fingerprint, limit, page.next, pages - 1), Follow(rows, matches, fingerprint, limit, cursor, pages);
    assert walked == [page] + rest && walked[1..] == rest;
  }

  lemma LastPage<T>(rows: seq<Row<T>>, matches: Row<T> -> bool, fingerprint: string, limit: nat, cursor: Option<Cursor>, pages: nat)
    requires pages > 0 && Query(rows, matches, fingerprint, limit, cursor).Success? && Query(rows, matches, fingerprint, limit, cursor).value.next.None?
    ensures var page := Query(rows, matches, fingerprint, limit, cursor).value; var walked := Follow(rows, matches, fingerprint, limit, cursor, pages);
            walked == [page] && Items(walked) == page.items
  {
    hide Query;
    var page := Query(rows, matches, fingerprint, limit, cursor).value;
    assert [page][1..] == [] && page.items + [] == page.items;
  }

  lemma Unserved<T(!new)>(listing: seq<Row<T>>, i: nat)
    requires Descending(listing) && i <= |listing|
    ensures Remaining(listing, Before(listing, i)) == listing[i..]
  {
    if i > 0 {
      LessTotal(PositionOf(listing[i - 1]), PositionOf(listing[i - 1]));
      RemainingIsSuffix(listing, PositionOf(listing[i - 1]), i);
    }
  }

  /** Following cursors from the start serves the filtered rows in order, without gap or repeat, in ceil(n / limit) pages and at least one. */
  lemma PagesAreExact<T(!new)>(rows: seq<Row<T>>, matches: Row<T> -> bool, fingerprint: string, limit: nat, pages: nat)
    requires Descending(rows) && 0 < limit <= 100
    requires pages >= PageCount(|Matching(rows, matches)|, limit)
    ensures var walked := Follow(rows, matches, fingerprint, limit, None, pages);
            && Items(walked) == Matching(rows, matches)
            && |walked| == PageCount(|Matching(rows, matches)|, limit)
            && walked[|walked| - 1].next.None?
  {
    MatchingMeans(rows, matches);
    FollowFrom(rows, matches, fingerprint, limit, 0, pages);
  }

  // ---- Rows that come and go between pages ----

  /** The rows served to a caller that follows cursors while the table changes from one state to the next between two pages. */
  function Walk<T>(tables: seq<seq<Row<T>>>, matches: Row<T> -> bool, fingerprint: string, limit: nat, cursor: Option<Cursor>): seq<Row<T>>
  {
    if tables == [] then []
    else
      match Query(tables[0], matches, fingerprint, limit, cursor)
      case Failure(_) => []
      case Success(page) =>
        page.items + if page.next.None? then [] else Walk(tables[1..], matches, fingerprint, limit, page.next)
  }

  /** The caller gets to a page without a cursor. */
  predicate Finishes<T>(tables: seq<seq<Row<T>>>, matches: Row<T> -> bool, fingerprint: string, limit: nat, cursor: Option<Cursor>)
  {
    && tables != []
    && var page := Query(tables[0], matches, fingerprint, limit, cursor);
       page.Success? && (page.value.next.None? || Finishes(tables[1..], matches, fingerprint, limit, page.value.next))
  }

  predicate Lists<T>(listing: seq<Row<T>>, p: Position) {
    exists i :: 0 <= i < |listing| && PositionOf(listing[i]) == p
  }

  lemma {:induction false} RemainingMeans<T(!new)>(listing: seq<Row<T>>, after: Option<Position>)
    requires Descending(listing)
    ensures Descending(Remaining(listing, after))
    ensures forall r :: r in Remaining(listing, after) <==> r in listing && (after.None? || Less(PositionOf(r), after.value))
  {
    hide Less;
    if after.Some? && listing != [] {
      var n := |listing| - 1;
      RemainingMeans(listing[..n], after);
      assert listing == listing[..n] + [listing[n]];
      var front := Remaining(listing[..n], after);
      forall i | 0 <= i < |front|
        ensures Less(PositionOf(listing[n]), PositionOf(front[i]))
      {
        assert front[i] in front && front[i] in listing[..n];
        var j :| 0 <= j < n && listing[j] == front[i];
      }
    }
  }

  /** One page: its items descend below the cursor, and a listed position below the cursor is either on it or below its next cursor. */
  lemma PageMeans<T(!new)>(listing: seq<Row<T>>, after: Option<Position>, limit: nat, fingerprint: string, p: Position)
    requires Descending(listing) && limit > 0
    ensures var page := PageAfter(listing, after, limit, fingerprint);
            && Descending(page.items)
            && (forall i :: 0 <= i < |page.items| ==> page.items[i] in listing && (after.None? || Less(PositionOf(page.items[i]), after.value)))
            && (page.next.Some? ==> page.items != [] && (page.next.value.createdAt, page.next.value.id) == PositionOf(page.items[|page.items| - 1]))
            && (Lists(listing, p) && (after.None? || Less(p, after.value)) ==>
                  Lists(page.items, p) || (page.next.Some? && Less(p, (page.next.value.createdAt, page.next.value.id))))
  {
    hide Less, Remaining;
    RemainingMeans(listing, after);
    var left, page := Remaining(listing, after), PageAfter(listing, after, limit, fingerprint);
    forall i | 0 <= i < |page.items|
      ensures page.items[i] in listing && (after.None? || Less(PositionOf(page.items[i]), after.value))
    {
      assert page.items[i] == left[i] && left[i] in left;
    }
    if Lists(listing, p) && (after.None? || Less(p, after.value)) {
      var i :| 0 <= i < |listing| && PositionOf(listing[i]) == p;
      assert listing[i] in left;
      var j :| 0 <= j < |left| && left[j] == listing[i];
      if j < |page.items| {
        assert page.items[j] == left[j];
      }
    }
  }

  predicate AllBelow<T>(items: seq<Row<T>>, after: Option<Position>) {
    forall i :: 0 <= i < |items| ==> after.None? || Less(PositionOf(items[i]), after.value)
  }

  lemma DescendingConcat<T(!new)>(front: seq<Row<T>>, back: seq<Row<T>>, after: Option<Position>)
    requires Descending(front) && Descending(back) && AllBelow(front, after) && front != []
    requires AllBelow(back, Some(PositionOf(front[|front| - 1])))
    ensures Descending(front + back) && AllBelow(front + back, after)
  {
    hide Less;
    var last := PositionOf(front[|front| - 1]);
    forall i, j | 0 <= i < |front| && 0 <= j < |back|
      ensures Less(PositionOf(back[j]), PositionOf(front[i])) && (after.None? || Less(PositionOf(back[j]), after.value))
    {
      assert Less(PositionOf(back[j]), last);
      if i < |front| - 1 {
        LessTransitive(PositionOf(back[j]), last, PositionOf(front[i]));
      }
      if after.Some? {
        LessTransitive(PositionOf(back[j]), last, after.value);
      }
    }
  }

  /**
   Whatever is inserted, deleted or changed between two pages: the walk's rows strictly descend, so
   nothing is served twice, and a position that matches whenever a page is read is served once.
   */
  lemma {:induction false} WalkIsExact<T(!new)>(tables: seq<seq<Row<T>>>, matches: Row<T> -> bool, fingerprint: string, limit: nat, after: Option<Position>, p: Position)
    requires 0 < limit <= 100 && Finishes(tables, matches, fingerprint, limit, CursorAt(after, fingerprint))
    requires forall i :: 0 <= i < |tables| ==> Descending(tables[i])
    ensures var walk := Walk(tables, matches, fingerprint, limit, CursorAt(after, fingerprint));
            && Descending(walk) && AllBelow(walk, after)
            && ((forall i :: 0 <= i < |tables| ==> Lists(Matching(tables[i], matches), p)) && (after.None? || Less(p, after.value)) ==> Lists(walk, p))
  {
    hide Less, PageAfter, Matching, Query;
    var listing := Matching(tables[0], matches);
    MatchingMeans(tables[0], matches);
    QueryFrom(tables[0], matches, limit, after, fingerprint, fingerprint);
    var page := PageAfter(listing, after, limit, fingerprint);
    PageMeans(listing, after, limit, fingerprint, p);
    NextCursor(listing, after, limit, fingerprint);
    if page.next.Some? {
      var next := PositionOf(page.items[|page.items| - 1]);
      var rest := Walk(tables[1..], matches, fingerprint, limit, page.next);
      WalkIsExact(tables[1..], matches, fingerprint, limit, Some(next), p);
      DescendingConcat(page.items, rest, after);
      ListsConcat(page.items, rest, p);
    } else {
      assert page.items + [] == page.items;
    }
  }

  lemma ListsConcat<T(!new)>(front: seq<Row<T>>, back: seq<Row<T>>, p: Position)
    ensures Lists(front, p) || Lists(back, p) ==> Lists(front + back, p)
  {
    if Lists(front, p) {
      var i :| 0 <= i < |front| && PositionOf(front[i]) == p;
      assert (front + back)[i] == front[i];
    } else if Lists(back, p) {
      var i :| 0 <= i < |back| && PositionOf(back[i]) == p;
      assert (front + back)[|front| + i] == back[i];
    }
  }

  /** A position that stays listed is served exactly once by a caller that reaches the end. */
  lemma StayingRowServedOnce<T(!new)>(tables: seq<seq<Row<T>>>, matches: Row<T> -> bool, fingerprint: string, limit: nat, p: Position)
    requires 0 < limit <= 100 && Finishes(tables, matches, fingerprint, limit, None)
    requires forall i :: 0 <= i < |tables| ==> Descending(tables[i]) && Lists(Matching(tables[i], matches), p)
    ensures var walk := Walk(tables, matches, fingerprint, limit, None);
            exists i :: 0 <= i < |walk| && PositionOf(walk[i]) == p && forall j :: 0 <= j < |walk| && PositionOf(walk[j]) == p ==> j == i
  {
    hide Walk, Less;
    WalkIsExact(tables, matches, fingerprint, limit, None, p);
    var walk := Walk(tables, matches, fingerprint, limit, None);
    var i :| 0 <= i < |walk| && PositionOf(walk[i]) == p;
    forall j | 0 <= j < |walk| && j != i
      ensures PositionOf(walk[j]) != p
    {
      LessTotal(PositionOf(walk[i]), PositionOf(walk[j]));
    }
  }

  // ---- One page, on its rows ----

  /** Older by the creation time and, at one time, smaller by the id. */
  predicate Older(createdAt: string, id: string, thanCreatedAt: string, thanId: string) {
    if createdAt == thanCreatedAt then id != thanId && StringLeq(id, thanId) else StringLeq(createdAt, thanCreatedAt)
  }

  predicate NewestFirst<T>(rows: seq<Row<T>>) {
    forall i, j :: 0 <= i < j < |rows| ==> Older(rows[j].createdAt, rows[j].id, rows[i].createdAt, rows[i].id)
  }

  /** The row passes the filter, and is older than where the cursor stopped. */
  predicate Asked<T>(matches: Row<T> -> bool, cursor: Option<Cursor>, r: Row<T>) {
    matches(r) && (cursor.Some? ==> Older(r.createdAt, r.id, cursor.value.createdAt, cursor.value.id))
  }

  /** The page has the newest rows asked for, newest first; and exactly if there are more than fit, a cursor at its last row. */
  ghost predicate Serves<T(!new)>(rows: seq<Row<T>>, matches: Row<T> -> bool, fingerprint: string, limit: nat, cursor: Option<Cursor>, page: Page<T>) {
    && NewestFirst(page.items) && |page.items| <= limit
    && (forall r :: r in page.items ==> r in rows && Asked(matches, cursor, r))
    && (page.next.None? ==> forall r :: r in rows && Asked(matches, cursor, r) ==> r in page.items)
    && (page.next.Some? ==>
          && |page.items| == limit > 0
          && var last := page.items[limit - 1];
             && page.next.value == Cursor(1, last.createdAt, last.id, fingerprint)
             && (forall r :: r in rows && Asked(matches, cursor, r) ==> r in page.items || Older(r.createdAt, r.id, last.createdAt, last.id))
             && (exists r :: r in rows && Asked(matches, cursor, r) && r !in page.items))
  }

  lemma OlderIsLess(a: Position, b: Position)
    ensures Less(a, b) <==> Older(a.0, a.1, b.0, b.1)
  {
  }

  lemma NewestFirstDescends<T>(rows: seq<Row<T>>)
    ensures NewestFirst(rows) <==> Descending(rows)
  {
    if Descending(rows) {
      forall i, j | 0 <= i < j < |rows|
        ensures Older(rows[j].createdAt, rows[j].id, rows[i].createdAt, rows[i].id)
      {
        OlderIsLess(PositionOf(rows[j]), PositionOf(rows[i]));
      }
    }
    if NewestFirst(rows) {
      forall i, j | 0 <= i < j < |rows|
        ensures Less(PositionOf(rows[j]), PositionOf(rows[i]))
      {
        OlderIsLess(PositionOf(rows[j]), PositionOf(rows[i]));
      }
    }
    hide Less, Older;
  }

  lemma CutAt<T(!new)>(left: seq<Row<T>>, limit: nat)
    requires NewestFirst(left) && 0 < limit < |left|
    ensures NewestFirst(left[..limit]) && left[limit] !in left[..limit]
    ensures forall r :: r in left ==> r in left[..limit] || Older(r.createdAt, r.id, left[limit - 1].createdAt, left[limit - 1].id)
  {
    forall i | 0 <= i < limit
      ensures left[i] != left[limit]
    {
      OlderIsLess(PositionOf(left[limit]), PositionOf(left[i]));
    }
    forall r | r in left
      ensures r in left[..limit] || Older(r.createdAt, r.id, left[limit - 1].createdAt, left[limit - 1].id)
    {
      var i :| 0 <= i < |left| && left[i] == r;
      if i < limit {
        assert left[..limit][i] == r;
      }
    }
    hide Older;
  }

  /** A query is answered if and only if the limit is within 1 to 100 and the cursor, if any, is of this version and of its scope and filters. */
  lemma QueryMeans<T(!new)>(rows: seq<Row<T>>, matches: Row<T> -> bool, fingerprint: string, limit: nat, cursor: Option<Cursor>)
    requires NewestFirst(rows)
    ensures var answer := Query(rows, matches, fingerprint, limit, cursor);
            && (answer.Success? <==> 1 <= limit <= 100 && (cursor.None? || (cursor.value.version == 1 && cursor.value.fingerprint == fingerprint)))
            && (answer.Success? ==> Serves(rows, matches, fingerprint, limit, cursor, answer.value))
  {
    hide Less, Older, Descending, NewestFirst, Matching, Remaining;
    if Query(rows, matches, fingerprint, limit, cursor).Success? {
      var listing := Matching(rows, matches);
      var after := if cursor.None? then None else Some((cursor.value.createdAt, cursor.value.id));
      var left := Remaining(listing, after);
      NewestFirstDescends(rows);
      MatchingMeans(rows, matches);
      RemainingMeans(listing, after);
      NewestFirstDescends(left);
      forall r: Row<T>
        ensures r in left <==> r in rows && Asked(matches, cursor, r)
      {
        if cursor.Some? {
          OlderIsLess(PositionOf(r), after.value);
        }
      }
      if |left| > limit {
        CutAt(left, limit);
        assert left[limit] in left;
      }
    }
  }
}
