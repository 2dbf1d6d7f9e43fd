/**
 Keyset paging of activity queries: the order of results, the cursor between
 two pages, and what a client that follows cursors to the end has read.
 */
module Keyset {
  import opened Prelude
  import opened Strings
  import opened FilterMeaning
  import opened Activities

  const CURSOR_TTL := 3_600_000

  // ORDER BY toStartOfHour(timestamp) DESC, timestamp DESC, activity_name DESC
  predicate Before(a: Activity, b: Activity) {
    StartOfHour(a.timestamp) > StartOfHour(b.timestamp) ||
    (StartOfHour(a.timestamp) == StartOfHour(b.timestamp) &&
     (a.timestamp > b.timestamp || (a.timestamp == b.timestamp && StrLess(b.name, a.name))))
  }

  // Where a page ended.
  datatype Position = Position(timestamp: int, name: string)

  function PositionOf(a: Activity): Position {
    Position(a.timestamp, a.name)
  }

  // The cursor condition of the query.
  predicate PastCursor(p: Position, a: Activity) {
    StartOfHour(a.timestamp) < StartOfHour(p.timestamp) ||
    (StartOfHour(a.timestamp) == StartOfHour(p.timestamp) && a.timestamp < p.timestamp) ||
    (a.timestamp == p.timestamp && StrLess(a.name, p.name))
  }

  lemma HourMonotone(s: int, t: int)
    requires s <= t
    ensures StartOfHour(s) <= StartOfHour(t)
  {
    assert StartOfHour(s) == s / HOUR * HOUR && StartOfHour(t) == t / HOUR * HOUR;
  }

  // A row passes the cursor exactly when the order puts it after the row the
  // cursor was taken from.
  lemma CursorMeansAfter(last: Activity, a: Activity)
    ensures PastCursor(PositionOf(last), a) <==> Before(last, a)
  {
  }

  // ---------------------------------------------------------------------
  // The order is a strict total order on uniquely named rows
  // ---------------------------------------------------------------------

  lemma BeforeIsByTime(a: Activity, b: Activity)
    ensures Before(a, b) <==>
            a.timestamp > b.timestamp || (a.timestamp == b.timestamp && StrLess(b.name, a.name))
  {
    HourMonotone(if a.timestamp < b.timestamp then a.timestamp else b.timestamp,
                 if a.timestamp < b.timestamp then b.timestamp else a.timestamp);
  }

  lemma BeforeTransitive(a: Activity, b: Activity, c: Activity)
    requires Before(a, b) && Before(b, c)
    ensures Before(a, c)
  {
    BeforeIsByTime(a, b);
    BeforeIsByTime(b, c);
    BeforeIsByTime(a, c);
    if a.timestamp == b.timestamp == c.timestamp {
      StrLessTransitive(c.name, b.name, a.name);
    }
  }

  lemma BeforeAsymmetric(a: Activity, b: Activity)
    ensures !(Before(a, b) && Before(b, a))
  {
    BeforeIsByTime(a, b);
    BeforeIsByTime(b, a);
    StrLessAsymmetric(a.name, b.name);
  }

  lemma BeforeTotal(a: Activity, b: Activity)
    requires a.name != b.name
    ensures Before(a, b) || Before(b, a)
  {
    BeforeIsByTime(a, b);
    BeforeIsByTime(b, a);
    StrLessTotal(a.name, b.name);
  }

  ghost predicate UniqueNames(table: set<Activity>) {
    forall a, b :: a in table && b in table && a != b ==> a.name != b.name
  }

  ghost predicate Descending(s: seq<Activity>) {
    forall i, j :: 0 <= i < j < |s| ==> Before(s[i], s[j])
  }

  // What the query sees without a limit: its rows, in order.
  ghost predicate IsResult(s: seq<Activity>, table: set<Activity>) {
    Descending(s) && forall a :: a in s <==> a in table
  }

  lemma {:induction false} ResultUnique(s: seq<Activity>, t: seq<Activity>, table: set<Activity>)
    requires IsResult(s, table) && IsResult(t, table)
    ensures s == t
  {
    if s == [] {
      if t != [] {
        SameFirst(t, s, table);
      }
    } else {
      SameFirst(s, t, table);
      TailResult(s, table);
      TailResult(t, table);
      ResultUnique(s[1..], t[1..], table - {s[0]});
      assert s == [s[0]] + s[1..] && t == [t[0]] + t[1..];
    }
  }

  lemma SameFirst(s: seq<Activity>, t: seq<Activity>, table: set<Activity>)
    requires s != [] && IsResult(s, table) && IsResult(t, table)
    ensures t != [] && t[0] == s[0]
  {
    assert s[0] in table && s[0] in t;
    assert t[0] in table && t[0] in s;
    BeforeAsymmetric(s[0], t[0]);
  }

  lemma TailResult(s: seq<Activity>, table: set<Activity>)
    requires s != [] && IsResult(s, table)
    ensures IsResult(s[1..], table - {s[0]})
  {
    forall a ensures a in s[1..] <==> a in table - {s[0]} {
      if a in s[1..] {
        var i :| 0 <= i < |s| - 1 && s[1..][i] == a;
        BeforeAsymmetric(s[0], s[i + 1]);
      }
    }
  }

  ghost predicate IsFirst(m: Activity, table: set<Activity>) {
    m in table && forall a :: a in table && a != m ==> Before(m, a)
  }

  ghost function First(table: set<Activity>): (m: Activity)
    requires table != {} && UniqueNames(table)
    ensures IsFirst(m, table)
  {
    FirstExists(table);
    var m :| IsFirst(m, table);
    m
  }

  lemma {:induction false} FirstExists(table: set<Activity>)
    requires table != {} && UniqueNames(table)
    ensures exists m :: IsFirst(m, table)
    decreases |table|
  {
    var x :| x in table;
    var rest := table - {x};
    if rest == {} {
      assert table == {x};
      assert IsFirst(x, table);
    } else {
      FirstExists(rest);
      var m :| IsFirst(m, rest);
      BeforeTotal(x, m);
      FirstOfMore(x, m, rest);
      assert table == rest + {x};
    }
  }

  lemma FirstOfMore(x: Activity, m: Activity, rest: set<Activity>)
    requires IsFirst(m, rest) && x !in rest && (Before(x, m) || Before(m, x))
    ensures IsFirst(if Before(x, m) then x else m, rest + {x})
  {
    if Before(x, m) {
      forall a | a in rest ensures Before(x, a) {
        if a != m {
          BeforeTransitive(x, m, a);
        }
      }
    }
  }

  lemma FirstAhead(m: Activity, rest: seq<Activity>, table: set<Activity>)
    requires IsFirst(m, table) && IsResult(rest, table - {m})
    ensures IsResult([m] + rest, table)
  {
    assert forall i :: 0 <= i < |rest| ==> rest[i] in rest;
    assert table == {m} + (table - {m});
  }

  ghost function Sorted(table: set<Activity>): (s: seq<Activity>)
    requires UniqueNames(table)
    ensures IsResult(s, table)
    decreases |table|
  {
    if table == {} then []
    else
      var m := First(table);
      var rest := Sorted(table - {m});
      FirstAhead(m, rest, table);
      [m] + rest
  }

  // ---------------------------------------------------------------------
  // One page
  // ---------------------------------------------------------------------

  // The page size for a requested limit.
  function PageLimit(requested: int, maxPageSize: nat): nat {
    if requested <= 0 then Min(100, maxPageSize) else Min(requested, maxPageSize)
  }

  function Min(a: nat, b: nat): nat {
    if a < b then a else b
  }

  datatype CursorToken = CursorToken(position: Position, queryHash: string, issuedAt: int)

  datatype CursorError = InvalidToken | ParametersChanged | TokenExpired

  function EncodeCursor(last: Activity, queryHash: string, now: int): CursorToken {
    CursorToken(PositionOf(last), queryHash, now)
  }

  // A token that is not valid base64 JSON decodes to None.
  function DecodeCursor(token: Option<CursorToken>, queryHash: string, now: int): Result<Position, CursorError> {
    if token.None? || token.value.position.name == "" then Err(InvalidToken)
    else if token.value.queryHash != queryHash then Err(ParametersChanged)
    else if now - token.value.issuedAt > CURSOR_TTL then Err(TokenExpired)
    else Ok(token.value.position)
  }

  // A fresh cursor for the same query gives back the row it was taken from;
  // any other use is refused.
  lemma CursorRoundTrip(last: Activity, h: string, now: int, h': string, later: int)
    requires last.name != ""
    ensures DecodeCursor(Some(EncodeCursor(last, h, now)), h', later) == Ok(PositionOf(last)) <==>
            h' == h && later <= now + 3_600_000
  {
  }

  ghost function Remaining(table: set<Activity>, from: Option<Position>): set<Activity> {
    if from.None? then table else set a | a in table && PastCursor(from.value, a)
  }

  datatype Page = Page(rows: seq<Activity>, next: Option<Position>)

  // LIMIT limit + 1, cut back to the limit when the extra row came.
  ghost function PageOf(table: set<Activity>, from: Option<Position>, limit: nat): Page
    requires UniqueNames(table)
  {
    Cut(Sorted(Remaining(table, from)), limit)
  }

  function Cut(all: seq<Activity>, limit: nat): Page {
    if |all| <= limit then Page(all, None)
    else Page(all[..limit], if limit == 0 then None else Some(PositionOf(all[limit - 1])))
  }

  // The server's loop over the rows that ClickHouse returns for LIMIT limit + 1.
  method QueryActivities(all: seq<Activity>, requested: int, maxPageSize: nat) returns (page: Page)
    ensures page == Cut(all, PageLimit(requested, maxPageSize))
    // The first rows, as many as were asked for, 100 if nothing was, and never
    // more than the maximum; the cursor is the last of them if there are more.
    ensures page.rows <= all
    ensures |page.rows| == |all| || |page.rows| == maxPageSize || |page.rows| == if requested > 0 then requested else 100
    ensures |page.rows| <= maxPageSize && |page.rows| <= if requested > 0 then requested else 100
    ensures page.next.Some? ==> page.rows != [] && var last := page.rows[|page.rows| - 1]; page.next.value == Position(last.timestamp, last.name)
    ensures maxPageSize > 0 ==> (page.next.Some? <==> |page.rows| < |all|)
  {
    var limit := requested;
    if limit <= 0 {
      limit := 100;
    }
    if limit > maxPageSize {
      limit := maxPageSize;
    }
    var returned := if |all| <= limit + 1 then all else all[..limit + 1];
    var rows := [];
    for i := 0 to |returned|
      invariant rows == returned[..i]
    {
      rows := rows + [returned[i]];
    }
    var next := None;
    if |rows| > limit {
      assert rows[..limit] == all[..limit];
      rows := rows[..limit];
      if |rows| > 0 {
        next := Some(PositionOf(rows[|rows| - 1]));
      }
    }
    page := Page(rows, next);
  }

  // ---------------------------------------------------------------------
  // Following cursors
  // ---------------------------------------------------------------------

  // The table each request sees, and where the run stands after them.
  datatype Walk = Walk(rows: seq<Activity>, at: Option<Position>, ended: bool)

  ghost predicate AllUnique(tables: seq<set<Activity>>) {
    forall i :: 0 <= i < |tables| ==> UniqueNames(tables[i])
  }

  // The rows read by one request per table, stopping when no cursor comes back.
  ghost function Follow(tables: seq<set<Activity>>, limit: nat): Walk
    requires AllUnique(tables)
  {
    if tables == [] then Walk([], None, false)
    else
      var w := Follow(tables[..|tables| - 1], limit);
      if w.ended then w
      else
        var p := PageOf(tables[|tables| - 1], w.at, limit);
        Walk(w.rows + p.rows, p.next, p.next.None?)
  }

  // Rows read so far are in order and end at the cursor, and those present in
  // every table so far have been read unless they come after it.
  ghost predicate Exact(w: Walk, tables: seq<set<Activity>>) {
    Descending(w.rows) &&
    (forall a :: a in w.rows ==> exists i :: 0 <= i < |tables| && a in tables[i]) &&
    (w.at.Some? ==> w.rows != [] && w.at.value == PositionOf(w.rows[|w.rows| - 1])) &&
    (w.at.None? && !w.ended ==> w.rows == []) &&
    (w.ended ==> w.at.None?) &&
    forall a :: Throughout(tables, a) && !Pending(w, a) ==> a in w.rows
  }

  ghost predicate Throughout(tables: seq<set<Activity>>, a: Activity) {
    tables != [] && forall i :: 0 <= i < |tables| ==> a in tables[i]
  }

  ghost predicate Pending(w: Walk, a: Activity) {
    !w.ended && (w.at.None? || PastCursor(w.at.value, a))
  }

  lemma PageExtends(w: Walk, table: set<Activity>, limit: nat)
    requires UniqueNames(table) && limit >= 1 && !w.ended
    requires Descending(w.rows)
    requires w.at.Some? ==> w.rows != [] && w.at.value == PositionOf(w.rows[|w.rows| - 1])
    requires w.at.None? ==> w.rows == []
    ensures Descending(w.rows + PageOf(table, w.at, limit).rows)
  {
    var rows := PageOf(table, w.at, limit).rows;
    var s := w.rows + rows;
    forall i, j | 0 <= i < j < |s| ensures Before(s[i], s[j]) {
      if i < |w.rows| && j >= |w.rows| {
        var last := w.rows[|w.rows| - 1];
        assert s[j] in rows;
        assert s[j] in Remaining(table, w.at);
        CursorMeansAfter(last, s[j]);
        if i < |w.rows| - 1 {
          BeforeTransitive(s[i], last, s[j]);
        }
      }
    }
  }

  // A row of this table is on this page, before it, or after its cursor.
  lemma PageCovers(from: Option<Position>, table: set<Activity>, limit: nat, a: Activity)
    requires UniqueNames(table) && limit >= 1 && a in table
    ensures var p := PageOf(table, from, limit);
            a in p.rows || (from.Some? && !PastCursor(from.value, a)) || (p.next.Some? && PastCursor(p.next.value, a))
  {
    if a in Remaining(table, from) {
      var all := Sorted(Remaining(table, from));
      var k :| 0 <= k < |all| && all[k] == a;
      if |all| > limit && k >= limit {
        CursorMeansAfter(all[limit - 1], a);
      } else if |all| > limit {
        assert all[..limit][k] == a;
      }
    }
  }

  ghost function Next(w: Walk, table: set<Activity>, limit: nat): Walk
    requires UniqueNames(table)
  {
    var p := PageOf(table, w.at, limit);
    Walk(w.rows + p.rows, p.next, p.next.None?)
  }

  lemma NextEndsAtCursor(w: Walk, table: set<Activity>, limit: nat)
    requires UniqueNames(table) && limit >= 1
    ensures var w' := Next(w, table, limit);
            w'.at.Some? ==> w'.rows != [] && w'.at.value == PositionOf(w'.rows[|w'.rows| - 1])
  {
    var all := Sorted(Remaining(table, w.at));
    if |all| > limit {
      assert all[..limit][limit - 1] == all[limit - 1];
    }
  }

  lemma NextOrigin(w: Walk, tables: seq<set<Activity>>, table: set<Activity>, limit: nat, a: Activity)
    requires UniqueNames(table) && a in Next(w, table, limit).rows
    requires a in w.rows ==> exists i :: 0 <= i < |tables| && a in tables[i]
    ensures exists i :: 0 <= i < |tables + [table]| && a in (tables + [table])[i]
  {
    var all := tables + [table];
    if a in w.rows {
      var i :| 0 <= i < |tables| && a in tables[i];
      assert a in all[i];
    } else {
      assert a in Sorted(Remaining(table, w.at));
      assert a in all[|tables|];
    }
  }

  lemma ThroughoutPrefix(tables: seq<set<Activity>>, table: set<Activity>, a: Activity)
    requires tables != [] && Throughout(tables + [table], a)
    ensures Throughout(tables, a)
  {
    forall i | 0 <= i < |tables| ensures a in tables[i] {
      assert (tables + [table])[i] == tables[i];
    }
  }

  lemma NextCovers(w: Walk, tables: seq<set<Activity>>, table: set<Activity>, limit: nat, a: Activity)
    requires UniqueNames(table) && limit >= 1 && Exact(w, tables) && !w.ended
    requires tables == [] ==> w.at.None?
    requires Throughout(tables + [table], a) && !Pending(Next(w, table, limit), a)
    ensures a in Next(w, table, limit).rows
  {
    var all := tables + [table];
    assert a in all[|tables|];
    PageCovers(w.at, table, limit, a);
    if tables != [] {
      ThroughoutPrefix(tables, table, a);
    }
  }

  lemma NextIsExact(w: Walk, tables: seq<set<Activity>>, table: set<Activity>, limit: nat)
    requires UniqueNames(table) && limit >= 1 && Exact(w, tables) && !w.ended
    requires tables == [] ==> w.at.None?
    ensures Exact(Next(w, table, limit), tables + [table])
  {
    PageExtends(w, table, limit);
    NextEndsAtCursor(w, table, limit);
    var w' := Next(w, table, limit);
    forall a | a in w'.rows ensures exists i :: 0 <= i < |tables + [table]| && a in (tables + [table])[i] {
      NextOrigin(w, tables, table, limit, a);
    }
    forall a | Throughout(tables + [table], a) && !Pending(w', a) ensures a in w'.rows {
      NextCovers(w, tables, table, limit, a);
    }
  }

  lemma EndedStaysExact(w: Walk, tables: seq<set<Activity>>, table: set<Activity>)
    requires w.ended && tables != [] && Exact(w, tables)
    ensures Exact(w, tables + [table])
  {
    var all := tables + [table];
    forall a | a in w.rows ensures exists i :: 0 <= i < |all| && a in all[i] {
      var i :| 0 <= i < |tables| && a in tables[i];
      assert a in all[i];
    }
    forall a | Throughout(all, a) ensures a in w.rows {
      ThroughoutPrefix(tables, table, a);
    }
  }

  // What every run of requests has read, whatever happens to the table
  // between them.
  lemma {:induction false} FollowIsExact(tables: seq<set<Activity>>, limit: nat)
    requires AllUnique(tables) && limit >= 1
    ensures Exact(Follow(tables, limit), tables)
    ensures tables == [] ==> Follow(tables, limit).at.None? && !Follow(tables, limit).ended
  {
    if tables != [] {
      var n := |tables| - 1;
      var before := tables[..n];
      FollowIsExact(before, limit);
      assert tables == before + [tables[n]];
      var w := Follow(before, limit);
      if w.ended {
        EndedStaysExact(w, before, tables[n]);
      } else {
        NextIsExact(w, before, tables[n], limit);
      }
    }
  }

  // A finished run has read in strictly descending order, so nothing twice,
  // and every row present throughout.
  lemma NothingMissedOrRepeated(tables: seq<set<Activity>>, limit: nat)
    requires AllUnique(tables) && limit >= 1 && Follow(tables, limit).ended
    ensures var rows := Follow(tables, limit).rows;
            Descending(rows) &&
            (forall i, j :: 0 <= i < j < |rows| ==> rows[i] != rows[j]) &&
            forall a :: Throughout(tables, a) ==> a in rows
  {
    FollowIsExact(tables, limit);
    var rows := Follow(tables, limit).rows;
    forall i, j | 0 <= i < j < |rows| ensures rows[i] != rows[j] {
      BeforeAsymmetric(rows[i], rows[j]);
    }
  }

  // ---------------------------------------------------------------------
  // A table that does not change
  // ---------------------------------------------------------------------

  function Same(table: set<Activity>, k: nat): seq<set<Activity>> {
    seq(k, i => table)
  }

  lemma PageShrinks(from: Option<Position>, table: set<Activity>, limit: nat)
    requires UniqueNames(table) && limit >= 1 && PageOf(table, from, limit).next.Some?
    ensures |Remaining(table, PageOf(table, from, limit).next)| < |Remaining(table, from)|
  {
    var all := Sorted(Remaining(table, from));
    var last := all[limit - 1];
    var after := Remaining(table, Some(PositionOf(last)));
    forall a | a in after ensures a in Remaining(table, from) {
      CursorMeansAfter(last, a);
      assert last in Remaining(table, from);
      AfterPast(from, last, a);
    }
    CursorMeansAfter(last, last);
    BeforeAsymmetric(last, last);
    assert last in Remaining(table, from);
    StrictSubset(after, Remaining(table, from), last);
  }

  lemma AfterPast(from: Option<Position>, last: Activity, a: Activity)
    requires from.Some? ==> PastCursor(from.value, last)
    requires Before(last, a)
    ensures from.Some? ==> PastCursor(from.value, a)
  {
    if from.Some? {
      var start := last.(timestamp := from.value.timestamp, name := from.value.name);
      CursorMeansAfter(start, last);
      CursorMeansAfter(start, a);
      BeforeTransitive(start, last, a);
    }
  }

  lemma StrictSubset(a: set<Activity>, b: set<Activity>, x: Activity)
    requires a <= b && x in b && x !in a
    ensures |a| < |b|
  {
    assert a <= b - {x};
    SubsetSize(a, b - {x});
  }

  lemma {:induction false} SubsetSize(a: set<Activity>, b: set<Activity>)
    requires a <= b
    ensures |a| <= |b|
    decreases |a|
  {
    if a != {} {
      var x :| x in a;
      SubsetSize(a - {x}, b - {x});
    }
  }

  lemma {:induction false} FixedTableShrinks(table: set<Activity>, limit: nat, k: nat)
    requires UniqueNames(table) && limit >= 1
    ensures var w := Follow(Same(table, k), limit);
            w.ended || |Remaining(table, w.at)| + k <= |table|
  {
    if k > 0 {
      FixedTableShrinks(table, limit, k - 1);
      assert Same(table, k)[..k - 1] == Same(table, k - 1);
      var w := Follow(Same(table, k - 1), limit);
      if !w.ended && PageOf(table, w.at, limit).next.Some? {
        PageShrinks(w.at, table, limit);
      }
    }
  }

  // Over a table that does not change, cursors run out and the pages make up
  // the whole sorted result.
  lemma FixedTableReadExactly(table: set<Activity>, limit: nat, k: nat)
    requires UniqueNames(table) && limit >= 1 && k > |table|
    ensures Follow(Same(table, k), limit).ended
    ensures Follow(Same(table, k), limit).rows == Sorted(table)
  {
    FixedTableShrinks(table, limit, k);
    FollowIsExact(Same(table, k), limit);
    var w := Follow(Same(table, k), limit);
    forall a ensures a in w.rows <==> a in table {
      if a in table {
        assert Throughout(Same(table, k), a);
      }
    }
    ResultUnique(w.rows, Sorted(table), table);
  }
}
