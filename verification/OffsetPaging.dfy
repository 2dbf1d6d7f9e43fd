/**
 Offset paging of Kubernetes events, and the reindex loop that reads every
 page of it.
 */
module OffsetPaging {
  import opened Prelude

  const DEFAULT_LIMIT := 100
  const MAX_LIMIT := 1000
  const CURSOR_TTL := 3_600_000

  datatype Event = Event(id: string)

  // Stored rows in the query's order; None where the JSON does not decode.
  type Rows = seq<Option<Event>>

  datatype Cursor = Cursor(offset: int, queryHash: string, issuedAt: Option<int>)

  datatype QueryError = CursorInvalid | ParametersChanged | CursorExpired | QueryFailed

  datatype Page = Page(events: seq<Event>, next: Option<Cursor>)

  function ResolveLimit(requested: int): (limit: nat)
    ensures 1 <= limit <= MAX_LIMIT <= 1000
    ensures 1 <= requested <= 1000 ==> limit == requested
    ensures requested > 1000 ==> limit == 1000
    ensures requested <= 0 ==> limit == 100
  {
    if requested <= 0 then DEFAULT_LIMIT else if requested > MAX_LIMIT then MAX_LIMIT else requested
  }

  // Two's complement 32-bit arithmetic.
  function Int32(x: int): int {
    (x + 0x8000_0000) % 0x1_0000_0000 - 0x8000_0000
  }

  function DecodeCursor(c: Cursor, queryHash: string, now: int): Result<int, QueryError> {
    if c.queryHash != queryHash then Err(ParametersChanged)
    else if c.issuedAt.None? then Err(CursorInvalid)
    else if now - c.issuedAt.value > CURSOR_TTL then Err(CursorExpired)
    else Ok(c.offset)
  }

  // The offset is read from the request's own cursor again, and taken as zero
  // when that no longer decodes.
  function EncodeCursor(request: Option<Cursor>, queryHash: string, limit: nat, now: int): Cursor {
    var current :=
      if request.None? then 0
      else match DecodeCursor(request.value, queryHash, now)
        case Ok(offset) => offset
        case Err(_) => 0;
    Cursor(Int32(current + limit), queryHash, Some(now))
  }

  // A cursor is good for the same query for an hour; it is refused for other
  // parameters first, then for having no issue time, then for its age.
  lemma CursorAcceptedIff(c: Cursor, queryHash: string, now: int)
    ensures DecodeCursor(c, queryHash, now).Ok? <==>
            c.queryHash == queryHash && c.issuedAt.Some? && now <= c.issuedAt.value + 3_600_000
    ensures DecodeCursor(c, queryHash, now).Ok? ==> DecodeCursor(c, queryHash, now).value == c.offset
    ensures DecodeCursor(c, queryHash, now) == Err(ParametersChanged) <==> c.queryHash != queryHash
    ensures DecodeCursor(c, queryHash, now) == Err(CursorInvalid) <==> c.queryHash == queryHash && c.issuedAt.None?
  {
  }

  // A cursor gives back the offset of the page after the one it was made for.
  lemma CursorRoundTrip(offset: int, h: string, issuedAt: int, limit: nat, now: int, h': string, later: int)
    requires now <= issuedAt + 3_600_000
    ensures DecodeCursor(EncodeCursor(Some(Cursor(offset, h, Some(issuedAt))), h, limit, now), h', later) == Ok(Int32(offset + limit)) <==>
            h' == h && later <= now + 3_600_000
    ensures DecodeCursor(EncodeCursor(None, h, limit, now), h', later) == Ok(Int32(limit)) <==> h' == h && later <= now + 3_600_000
  {
  }

  function Values(rows: Rows): seq<Event> {
    if rows == [] then []
    else
      var n := |rows| - 1;
      Values(rows[..n]) + (if rows[n].Some? then [rows[n].value] else [])
  }

  function AtMost(x: nat, bound: nat): nat {
    if x < bound then x else bound
  }

  function Window(rows: Rows, offset: nat, size: nat): Rows {
    rows[AtMost(offset, |rows|)..AtMost(offset + size, |rows|)]
  }

  // The clock when the query is built and when its cursor is encoded.
  datatype Clock = Clock(built: int, encoded: int)

  function CutPage(events: seq<Event>, limit: nat, next: Cursor): Page {
    if |events| > limit then Page(events[..limit], Some(next)) else Page(events, None)
  }

  function Query(rows: Rows, requested: int, queryHash: string, cursor: Option<Cursor>, clock: Clock): Result<Page, QueryError> {
    var limit := ResolveLimit(requested);
    var offset := if cursor.None? then Ok(0) else DecodeCursor(cursor.value, queryHash, clock.built);
    match offset
    case Err(e) => Err(e)
    case Ok(o) =>
      if o < 0 then Err(QueryFailed)
      else Ok(CutPage(Values(Window(rows, o, limit + 1)), limit, EncodeCursor(cursor, queryHash, limit, clock.encoded)))
  }

  // The server's loop, which skips rows that do not decode.
  method QueryEvents(rows: Rows, requested: int, queryHash: string, cursor: Option<Cursor>, clock: Clock)
    returns (result: Result<Page, QueryError>)
    ensures result == Query(rows, requested, queryHash, cursor, clock)
  {
    var limit := ResolveLimit(requested);
    var offset := 0;
    if cursor.Some? {
      var decoded := DecodeCursor(cursor.value, queryHash, clock.built);
      if decoded.Err? {
        return Err(decoded.error);
      }
      offset := decoded.value;
    }
    if offset < 0 {
      return Err(QueryFailed);
    }
    var returned := Window(rows, offset, limit + 1);
    var events := [];
    for i := 0 to |returned|
      invariant events == Values(returned[..i])
    {
      if returned[i].Some? {
        events := events + [returned[i].value];
      }
      assert returned[..i + 1][..i] == returned[..i];
    }
    assert returned[..|returned|] == returned;
    var next := None;
    if |events| > limit {
      events := events[..limit];
      next := Some(EncodeCursor(cursor, queryHash, limit, clock.encoded));
    }
    result := Ok(Page(events, next));
  }

  // ---------------------------------------------------------------------
  // Where following cursors stops
  // ---------------------------------------------------------------------

  predicate Decodable(rows: Rows) {
    forall i :: 0 <= i < |rows| ==> rows[i].Some?
  }

  // A window of limit + 1 rows, all of which decode: another page follows.
  predicate Full(rows: Rows, limit: nat, offset: nat) {
    offset + limit + 1 <= |rows| && Decodable(rows[offset..offset + limit + 1])
  }

  // The first window, from an offset on, that is short or has a bad row.
  function StopFrom(rows: Rows, limit: nat, offset: nat): (stop: nat)
    requires limit >= 1
    ensures offset <= stop && !Full(rows, limit, stop)
    decreases |rows| - offset
  {
    if Full(rows, limit, offset) then StopFrom(rows, limit, offset + limit) else offset
  }

  // How many rows are looked at in all.
  function ReadUpTo(rows: Rows, limit: nat): (n: nat)
    requires limit >= 1
    ensures n <= |rows|
  {
    AtMost(StopFrom(rows, limit, 0) + limit + 1, |rows|)
  }

  function Visited(rows: Rows, limit: nat): seq<Event>
    requires limit >= 1
  {
    Values(rows[..ReadUpTo(rows, limit)])
  }

  lemma {:induction false} ValuesConcat(a: Rows, b: Rows)
    ensures Values(a + b) == Values(a) + Values(b)
  {
    if b == [] {
      assert a + b == a;
    } else {
      var n := |b| - 1;
      ValuesConcat(a, b[..n]);
      assert (a + b)[..|a| + n] == a + b[..n];
    }
  }

  lemma {:induction false} DecodableValues(rows: Rows)
    ensures |Values(rows)| <= |rows|
    ensures |Values(rows)| == |rows| <==> Decodable(rows)
  {
    if rows != [] {
      DecodableValues(rows[..|rows| - 1]);
    }
  }

  predicate NoneFrom(rows: Rows, n: nat) {
    forall i :: n <= i < |rows| ==> rows[i].None?
  }

  // Every decodable row is visited exactly when no decodable row lies beyond
  // the first short or damaged window.
  lemma VisitsAllIff(rows: Rows, limit: nat)
    requires limit >= 1
    ensures Visited(rows, limit) == Values(rows) <==> NoneFrom(rows, ReadUpTo(rows, limit))
  {
    var n := ReadUpTo(rows, limit);
    SplitValues(rows, n);
    NothingDecodable(rows[n..]);
    NoneInSuffix(rows, n);
  }

  lemma NoneInSuffix(rows: Rows, n: nat)
    requires n <= |rows|
    ensures NoneFrom(rows, n) <==> NoneFrom(rows[n..], 0)
  {
    if NoneFrom(rows[n..], 0) {
      forall i | n <= i < |rows| ensures rows[i].None? {
        assert rows[n..][i - n] == rows[i];
      }
    }
  }

  lemma SplitValues(rows: Rows, n: nat)
    requires n <= |rows|
    ensures Values(rows) == Values(rows[..n]) + Values(rows[n..])
    ensures Values(rows[..n]) == Values(rows) <==> Values(rows[n..]) == []
  {
    assert rows == rows[..n] + rows[n..];
    ValuesConcat(rows[..n], rows[n..]);
    if Values(rows[..n]) == Values(rows) {
      assert |Values(rows[n..])| == 0;
    }
  }

  lemma {:induction false} NothingDecodable(rows: Rows)
    ensures Values(rows) == [] <==> NoneFrom(rows, 0)
  {
    if rows != [] {
      NothingDecodable(rows[..|rows| - 1]);
    }
  }

  // Without damaged rows the pages tile the result.
  lemma {:induction false} StopIsShort(rows: Rows, limit: nat, offset: nat)
    requires limit >= 1 && Decodable(rows)
    ensures StopFrom(rows, limit, offset) + limit + 1 > |rows|
    decreases |rows| - offset
  {
    if Full(rows, limit, offset) {
      StopIsShort(rows, limit, offset + limit);
    }
  }

  lemma DecodableAllVisited(rows: Rows, limit: nat)
    requires limit >= 1 && Decodable(rows)
    ensures Visited(rows, limit) == Values(rows) && |Visited(rows, limit)| == |rows|
  {
    StopIsShort(rows, limit, 0);
    assert rows[..|rows|] == rows;
    DecodableValues(rows);
  }

  // A damaged row in the first page hides everything after it.
  lemma DamagedRowHidesRest(a: Event, b: Event, limit: nat)
    requires limit == 1
    ensures Visited([None, Some(a), Some(b)], limit) == [a]
  {
    var rows: Rows := [None, Some(a), Some(b)];
    assert !Full(rows, 1, 0) by {
      assert rows[0..2][0] == None;
    }
    assert rows[..2] == [None, Some(a)];
    assert [None, Some(a)][..1] == [None];
    assert Values([None]) == [];
  }

  // ---------------------------------------------------------------------
  // The reindex loop
  // ---------------------------------------------------------------------

  datatype Progress = Progress(currentBatch: nat, processedEvents: nat, activitiesGenerated: nat)

  // One batch's circumstances: its clock readings, whether the context is
  // cancelled or the query, the evaluation or the publish fails in it, and
  // whether the rate limiter does after it.
  datatype Turn = Turn(clock: Clock, fails: bool, limiterFails: bool)

  datatype Outcome = Completed | Failed | StillRunning

  function Activities(evaluate: Event -> seq<string>, events: seq<Event>): seq<string> {
    if events == [] then []
    else
      var n := |events| - 1;
      Activities(evaluate, events[..n]) + evaluate(events[n])
  }

  lemma {:induction false} ActivitiesConcat(evaluate: Event -> seq<string>, a: seq<Event>, b: seq<Event>)
    ensures Activities(evaluate, a + b) == Activities(evaluate, a) + Activities(evaluate, b)
  {
    if b == [] {
      assert a + b == a;
    } else {
      var n := |b| - 1;
      ActivitiesConcat(evaluate, a, b[..n]);
      assert (a + b)[..|a| + n] == a + b[..n];
    }
  }

  // The cursor of the i-th request is still valid when the next is encoded,
  // and when its own query is built.
  predicate ValidToEncode(turns: seq<Turn>, i: nat)
    requires 0 < i < |turns|
  {
    turns[i].clock.encoded - turns[i - 1].clock.encoded <= CURSOR_TTL
  }

  predicate ValidToQuery(turns: seq<Turn>, i: nat)
    requires 0 < i < |turns|
  {
    turns[i].clock.built - turns[i - 1].clock.encoded <= CURSOR_TTL
  }

  // No cursor lapses between the moment a query is built with it and the
  // moment the next one is encoded.
  predicate NoLapse(turns: seq<Turn>) {
    forall i {:trigger ValidToEncode(turns, i)} :: 0 < i < |turns| ==> ValidToEncode(turns, i)
  }

  // Nothing fails, and every query is built while its cursor is valid.
  predicate Smooth(turns: seq<Turn>) {
    NoLapse(turns) &&
    (forall i {:trigger ValidToQuery(turns, i)} :: 0 < i < |turns| ==> ValidToQuery(turns, i)) &&
    forall i :: 0 <= i < |turns| ==> !turns[i].fails && !turns[i].limiterFails
  }

  const MAX_INT32 := 0x7FFF_FFFF

  // The rows before a page.
  function Offset(pages: nat, limit: nat): nat {
    if pages == 0 then 0 else Offset(pages - 1, limit) + limit
  }

  lemma {:induction false} OffsetIsProduct(pages: nat, limit: nat)
    ensures Offset(pages, limit) == pages * limit
  {
    if pages > 0 {
      OffsetIsProduct(pages - 1, limit);
    }
  }

  // After some full pages: each cursor holds the pages so far times the limit,
  // and exactly the rows before it have been processed.
  ghost predicate Tiled(rows: Rows, limit: nat, queryHash: string, pages: nat, cursor: Option<Cursor>,
                        processed: seq<Event>)
    requires limit >= 1
  {
    (pages == 0 <==> cursor.None?) && Before(rows, limit, queryHash, Offset(pages, limit), cursor, processed)
  }

  // A request about to read from offset o on.
  ghost predicate Before(rows: Rows, limit: nat, queryHash: string, o: nat, cursor: Option<Cursor>, processed: seq<Event>)
    requires limit >= 1
  {
    o <= |rows| && processed == Values(rows[..o]) &&
    StopFrom(rows, limit, 0) == StopFrom(rows, limit, o) &&
    (cursor.None? ==> o == 0) &&
    (cursor.Some? ==>
       o - limit <= MAX_INT32 && o < |rows| &&
       cursor.value.offset == Int32(o) && cursor.value.queryHash == queryHash && cursor.value.issuedAt.Some?)
  }

  lemma Int32Fits(x: int)
    requires 0 <= x <= MAX_INT32 + MAX_LIMIT
    ensures x <= MAX_INT32 ==> Int32(x) == x
    ensures x > MAX_INT32 ==> Int32(x) < 0
  {
  }

  // What one request returns in that position.
  lemma PageAt(rows: Rows, limit: nat, queryHash: string, pages: nat, cursor: Option<Cursor>, processed: seq<Event>,
               requested: int, clock: Clock)
    requires limit == ResolveLimit(requested) && Tiled(rows, limit, queryHash, pages, cursor, processed)
    requires cursor.Some? ==> clock.encoded - cursor.value.issuedAt.value <= CURSOR_TTL
    requires Query(rows, requested, queryHash, cursor, clock).Ok?
    ensures var page := Query(rows, requested, queryHash, cursor, clock).value;
            (page.next.None? ==> processed + page.events == Visited(rows, limit)) &&
            (page.next.Some? ==>
               Tiled(rows, limit, queryHash, pages + 1, page.next, processed + page.events) &&
               page.events != [] && page.next.value.issuedAt == Some(clock.encoded))
  {
    PageFrom(rows, limit, queryHash, Offset(pages, limit), cursor, processed, requested, clock);
  }

  lemma PageFrom(rows: Rows, limit: nat, queryHash: string, o: nat, cursor: Option<Cursor>, processed: seq<Event>,
                 requested: int, clock: Clock)
    requires limit == ResolveLimit(requested) && Before(rows, limit, queryHash, o, cursor, processed)
    requires cursor.Some? ==> clock.encoded - cursor.value.issuedAt.value <= CURSOR_TTL
    requires Query(rows, requested, queryHash, cursor, clock).Ok?
    ensures var page := Query(rows, requested, queryHash, cursor, clock).value;
            (page.next.None? ==> processed + page.events == Visited(rows, limit)) &&
            (page.next.Some? ==>
               Before(rows, limit, queryHash, o + limit, page.next, processed + page.events) &&
               page.events != [] && page.next.value.issuedAt == Some(clock.encoded))
  {
    QueryFrom(rows, limit, queryHash, o, cursor, processed, requested, clock);
    if |Values(Window(rows, o, limit + 1))| > limit {
      MovesOn(rows, limit, queryHash, o, cursor, processed, clock.encoded);
    } else {
      LastPage(rows, limit, o);
    }
  }

  lemma MovesOn(rows: Rows, limit: nat, queryHash: string, o: nat, cursor: Option<Cursor>, processed: seq<Event>, now: int)
    requires limit >= 1 && Before(rows, limit, queryHash, o, cursor, processed) && o <= MAX_INT32
    requires |Values(Window(rows, o, limit + 1))| > limit
    ensures Before(rows, limit, queryHash, o + limit, Some(Cursor(Int32(o + limit), queryHash, Some(now))),
                   processed + Values(Window(rows, o, limit + 1))[..limit])
  {
    FullPage(rows, limit, o);
    StopNext(rows, limit, o);
  }

  lemma StopNext(rows: Rows, limit: nat, o: nat)
    requires limit >= 1 && Full(rows, limit, o)
    ensures StopFrom(rows, limit, o) == StopFrom(rows, limit, o + limit)
  {
  }

  lemma QueryFrom(rows: Rows, limit: nat, queryHash: string, o: nat, cursor: Option<Cursor>, processed: seq<Event>,
                  requested: int, clock: Clock)
    requires limit == ResolveLimit(requested) && Before(rows, limit, queryHash, o, cursor, processed)
    requires cursor.Some? ==> clock.encoded - cursor.value.issuedAt.value <= CURSOR_TTL
    requires Query(rows, requested, queryHash, cursor, clock).Ok?
    ensures o <= MAX_INT32
    ensures Query(rows, requested, queryHash, cursor, clock).value ==
            CutPage(Values(Window(rows, o, limit + 1)), limit, Cursor(Int32(o + limit), queryHash, Some(clock.encoded)))
  {
    if cursor.Some? {
      Int32Fits(o);
    }
  }

  lemma FullPage(rows: Rows, limit: nat, o: nat)
    requires limit >= 1 && o <= |rows| && |Values(Window(rows, o, limit + 1))| > limit
    ensures o + limit < |rows| && Full(rows, limit, o)
    ensures Values(rows[..o]) + Values(Window(rows, o, limit + 1))[..limit] == Values(rows[..o + limit])
  {
    DecodableValues(Window(rows, o, limit + 1));
    assert Window(rows, o, limit + 1) == rows[o..o + limit + 1];
    FirstValues(rows[o..o + limit + 1], limit);
    ValuesConcat(rows[..o], rows[o..o + limit]);
    assert rows[o..o + limit + 1][..limit] == rows[o..o + limit];
    assert rows[..o] + rows[o..o + limit] == rows[..o + limit];
  }

  // When all rows decode, the first ones' values come first.
  lemma FirstValues(rows: Rows, k: nat)
    requires Decodable(rows) && k <= |rows|
    ensures |Values(rows)| == |rows| && Values(rows)[..k] == Values(rows[..k])
  {
    DecodableValues(rows);
    DecodableValues(rows[..k]);
    SplitValues(rows, k);
  }

  lemma LastPage(rows: Rows, limit: nat, o: nat)
    requires limit >= 1 && o <= |rows| && |Values(Window(rows, o, limit + 1))| <= limit
    requires StopFrom(rows, limit, 0) == StopFrom(rows, limit, o)
    ensures Values(rows[..o]) + Values(Window(rows, o, limit + 1)) == Visited(rows, limit)
  {
    NotFull(rows, limit, o);
    StopHere(rows, limit, o);
    ReadWindow(rows, o, limit + 1);
  }

  lemma StopHere(rows: Rows, limit: nat, o: nat)
    requires limit >= 1 && !Full(rows, limit, o) && StopFrom(rows, limit, 0) == StopFrom(rows, limit, o)
    ensures ReadUpTo(rows, limit) == AtMost(o + limit + 1, |rows|)
  {
  }

  lemma NotFull(rows: Rows, limit: nat, o: nat)
    requires |Values(Window(rows, o, limit + 1))| <= limit
    ensures !Full(rows, limit, o)
  {
    DecodableValues(Window(rows, o, limit + 1));
  }

  lemma ReadWindow(rows: Rows, o: nat, size: nat)
    requires o <= |rows|
    ensures Values(rows[..o]) + Values(Window(rows, o, size)) == Values(rows[..AtMost(o + size, |rows|)])
  {
    ValuesConcat(rows[..o], Window(rows, o, size));
    assert rows[..o] + Window(rows, o, size) == rows[..AtMost(o + size, |rows|)];
  }

  // What has been counted and published is what has been processed.
  ghost predicate Accounted(progress: Progress, published: seq<string>, processed: seq<Event>, dryRun: bool,
                            evaluate: Event -> seq<string>) {
    progress.processedEvents == |processed| &&
    progress.activitiesGenerated == |Activities(evaluate, processed)| &&
    published == if dryRun then [] else Activities(evaluate, processed)
  }

  // Evaluating, publishing and counting one batch.
  method ProcessBatch(progress: Progress, published: seq<string>, ghost processed: seq<Event>, batch: seq<Event>,
                      dryRun: bool, evaluate: Event -> seq<string>)
    returns (progress': Progress, published': seq<string>)
    requires Accounted(progress, published, processed, dryRun, evaluate)
    ensures Accounted(progress', published', processed + batch, dryRun, evaluate)
    ensures progress'.currentBatch == progress.currentBatch
  {
    var activities := EvaluateBatch(batch, evaluate);
    ActivitiesConcat(evaluate, processed, batch);
    published' := published;
    if !dryRun && |activities| > 0 {
      published' := published + activities;
    }
    progress' := progress.(processedEvents := progress.processedEvents + |batch|,
                           activitiesGenerated := progress.activitiesGenerated + |activities|);
  }

  // The loop over event batches.
  method ProcessEvents(rows: Rows, requested: int, queryHash: string, turns: seq<Turn>, dryRun: bool,
                       evaluate: Event -> seq<string>)
    returns (progress: Progress, published: seq<string>, outcome: Outcome, processed: seq<Event>)
    ensures Accounted(progress, published, processed, dryRun, evaluate) && progress.currentBatch <= |turns|
    ensures NoLapse(turns) && outcome.Completed? ==> processed == Visited(rows, ResolveLimit(requested))
    ensures Smooth(turns) && |turns| > |rows| && |rows| <= MAX_INT32 ==> outcome.Completed?
  {
    var cursor := None;
    ghost var limit := ResolveLimit(requested);
    progress, published, processed := Progress(0, 0, 0), [], [];
    assert rows[..0] == [];
    for i := 0 to |turns|
      invariant progress.currentBatch == i && Accounted(progress, published, processed, dryRun, evaluate)
      invariant NoLapse(turns) ==> Tiled(rows, limit, queryHash, i, cursor, processed)
      invariant i > 0 ==> cursor.Some? && cursor.value.issuedAt == Some(turns[i - 1].clock.encoded)
    {
      progress := progress.(currentBatch := i + 1);
      var result := QueryEvents(rows, requested, queryHash, cursor, turns[i].clock);
      if Smooth(turns) && |rows| <= MAX_INT32 {
        SmoothQuery(rows, limit, queryHash, i, cursor, processed, requested, turns);
      }
      if turns[i].fails || result.Err? {
        outcome := Failed;
        return;
      }
      var page := result.value;
      if NoLapse(turns) {
        assert i > 0 ==> ValidToEncode(turns, i);
        PageAt(rows, limit, queryHash, i, cursor, processed, requested, turns[i].clock);
      }
      if |page.events| == 0 {
        assert processed + [] == processed;
        outcome := Completed;
        return;
      }
      progress, published := ProcessBatch(progress, published, processed, page.events, dryRun, evaluate);
      processed := processed + page.events;
      if turns[i].limiterFails {
        outcome := Failed;
        return;
      }
      if page.next.None? {
        outcome := Completed;
        return;
      }
      cursor := page.next;
    }
    outcome := StillRunning;
    TooManyPages(limit, |turns|);
  }

  lemma {:induction false} TooManyPages(limit: nat, pages: nat)
    requires limit >= 1
    ensures Offset(pages, limit) >= pages
  {
    if pages > 0 {
      TooManyPages(limit, pages - 1);
    }
  }

  lemma SmoothQuery(rows: Rows, limit: nat, queryHash: string, i: nat, cursor: Option<Cursor>, processed: seq<Event>,
                    requested: int, turns: seq<Turn>)
    requires limit == ResolveLimit(requested) && i < |turns| && Smooth(turns) && |rows| <= MAX_INT32
    requires Tiled(rows, limit, queryHash, i, cursor, processed)
    requires i > 0 ==> cursor.Some? && cursor.value.issuedAt == Some(turns[i - 1].clock.encoded)
    ensures Query(rows, requested, queryHash, cursor, turns[i].clock).Ok?
  {
    if i > 0 {
      assert ValidToQuery(turns, i);
      Int32Fits(Offset(i, limit));
    }
  }

  method EvaluateBatch(batch: seq<Event>, evaluate: Event -> seq<string>) returns (activities: seq<string>)
    ensures activities == Activities(evaluate, batch)
  {
    activities := [];
    for i := 0 to |batch|
      invariant activities == Activities(evaluate, batch[..i])
    {
      activities := activities + evaluate(batch[i]);
      assert batch[..i + 1][..i] == batch[..i];
    }
    assert batch[..|batch|] == batch;
  }

  // A cursor that lapses while its query runs sends the next page back to the
  // second one.
  lemma LapseRestarts(offset: int, queryHash: string, issuedAt: int, limit: nat, now: int)
    ensures 1 <= limit <= MAX_LIMIT ==>
              var c := Cursor(offset, queryHash, Some(issuedAt));
              EncodeCursor(Some(c), queryHash, limit, now).offset ==
              if now - issuedAt > CURSOR_TTL then limit else Int32(offset + limit)
  {
    if 1 <= limit <= MAX_LIMIT {
      Int32Fits(limit);
    }
  }
}
