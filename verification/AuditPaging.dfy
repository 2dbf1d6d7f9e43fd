/**
 Paging through audit logs: what a cursor continues with, when that is what
 comes next, and when a client gets the same page for ever.
 */
module AuditPaging {
  import opened Prelude
  import opened Strings
  import opened AuditLogs
  import opened FilterMeaning
  import opened AuditQueries
  import opened AuditAnswers

  // ---------------------------------------------------------------------
  // The order of results
  // ---------------------------------------------------------------------

  // The four orders, which follow the projections of the table.
  datatype Listing = OfPlatform | OfPlatformByUser | OfUser | OfTenant

  function ListingOf(scope: Scope, filtersUser: bool): Listing {
    match scope
    case PlatformScope => if filtersUser then OfPlatformByUser else OfPlatform
    case UserScope(_) => OfUser
    case TenantScope(_, _) => OfTenant
  }

  // What decides between events of the same time, each descending.
  function Ties(o: Listing, log: AuditLog): seq<string> {
    match o
    case OfPlatform => [log.apiGroup, log.resource, log.auditId]
    case OfPlatformByUser => [log.username, log.apiGroup, log.resource, log.auditId]
    case OfUser => [log.uid, log.apiGroup, log.resource, log.auditId]
    case OfTenant => [log.scopeType, log.scopeName, log.username, log.auditId]
  }

  predicate AllLess(a: seq<string>, b: seq<string>)
    requires |a| == |b|
  {
    a != [] && (StrLess(a[0], b[0]) || (a[0] == b[0] && AllLess(a[1..], b[1..])))
  }

  // ORDER BY toStartOfHour(timestamp) DESC, timestamp DESC, and the ties.
  predicate Before(o: Listing, a: AuditLog, b: AuditLog) {
    || StartOfHour(a.received) > StartOfHour(b.received)
    || (StartOfHour(a.received) == StartOfHour(b.received) &&
        (a.received > b.received || (a.received == b.received && AllLess(Ties(o, b), Ties(o, a)))))
  }

  ghost predicate Sorted(o: Listing, all: seq<AuditLog>) {
    forall i, j :: 0 <= i < j < |all| ==> Before(o, all[i], all[j])
  }

  lemma {:induction false} AllLessAsymmetric(a: seq<string>, b: seq<string>)
    requires |a| == |b|
    ensures !(AllLess(a, b) && AllLess(b, a))
  {
    if a != [] {
      StrLessAsymmetric(a[0], b[0]);
      AllLessAsymmetric(a[1..], b[1..]);
    }
  }

  // The hour decides nothing that the time does not.
  lemma BeforeByTime(o: Listing, a: AuditLog, b: AuditLog)
    ensures Before(o, a, b) <==> a.received > b.received || (a.received == b.received && AllLess(Ties(o, b), Ties(o, a)))
  {
    if a.received > b.received {
      HoursFollow(b.received, a.received);
    } else {
      HoursFollow(a.received, b.received);
    }
  }

  lemma HoursFollow(s: int, t: int)
    requires s <= t
    ensures StartOfHour(s) <= StartOfHour(t)
  {
    assert StartOfHour(s) == s / HOUR * HOUR && StartOfHour(t) == t / HOUR * HOUR;
  }

  // ---------------------------------------------------------------------
  // One page
  // ---------------------------------------------------------------------

  datatype Page = Page(events: seq<AuditLog>, next: Option<Position>)

  // The cursor names the stage's time, the query compares the request's.
  function CursorOf(last: AuditLog): Position {
    Position(last.staged, last.auditId)
  }

  function Events(rows: seq<Option<AuditLog>>): seq<AuditLog> {
    if rows == [] then []
    else
      var n := |rows| - 1;
      Events(rows[..n]) + (if rows[n].Some? then [rows[n].value] else [])
  }

  function Cut(events: seq<AuditLog>, limit: nat): Page {
    if |events| <= limit then Page(events, None)
    else Page(events[..limit], if limit == 0 then None else Some(CursorOf(events[limit - 1])))
  }

  // The server's loop over the rows that come back for LIMIT limit + 1, some of
  // which may not decode.
  method QueryAuditLogs(rows: seq<Option<AuditLog>>, requested: int, maxPageSize: nat) returns (page: Page)
    ensures var asked := if requested > 0 then requested else 100;
      var limit := if asked < maxPageSize then asked else maxPageSize;
      page == Cut(Events(if |rows| <= limit + 1 then rows else rows[..limit + 1]), limit)
  {
    var limit := requested;
    if limit <= 0 {
      limit := 100;
    }
    if limit > maxPageSize {
      limit := maxPageSize;
    }
    var returned := if |rows| <= limit + 1 then rows else rows[..limit + 1];
    var events := [];
    for i := 0 to |returned|
      invariant events == Events(returned[..i])
    {
      if returned[i].Some? {
        events := events + [returned[i].value];
      }
      assert returned[..i + 1][..i] == returned[..i];
    }
    assert returned[..|returned|] == returned;
    var next := None;
    if |events| > limit {
      events := events[..limit];
      if |events| > 0 {
        next := Some(CursorOf(events[|events| - 1]));
      }
    }
    page := Page(events, next);
  }

  // The rows that a query with this cursor returns, all of which decode.
  function Following(all: seq<AuditLog>, from: Option<Position>): seq<AuditLog> {
    if from.None? then all
    else if all == [] then []
    else
      var n := |all| - 1;
      Following(all[..n], from) + (if Later(all[n], from.value) then [all[n]] else [])
  }

  // Page `n` of a client that follows the cursors.
  function PageNo(all: seq<AuditLog>, limit: nat, n: nat): Page {
    if n == 0 then Cut(all, limit)
    else
      var before := PageNo(all, limit, n - 1).next;
      if before.None? then Page([], None) else Cut(Following(all, before), limit)
  }

  // ---------------------------------------------------------------------
  // What a cursor continues with
  // ---------------------------------------------------------------------

  lemma {:induction false} FollowingMembers(all: seq<AuditLog>, p: Position, x: AuditLog)
    ensures x in Following(all, Some(p)) <==> x in all && Later(x, p)
  {
    if all != [] {
      var n := |all| - 1;
      FollowingMembers(all[..n], p, x);
      assert all == all[..n] + [all[n]];
    }
  }

  // If exactly the events from `k` on are later, they are what follows.
  lemma {:induction false} FollowingSuffix(all: seq<AuditLog>, p: Position, k: nat)
    requires k <= |all| && forall i :: 0 <= i < |all| ==> (Later(all[i], p) <==> i >= k)
    ensures Following(all, Some(p)) == all[k..]
  {
    if all != [] {
      var n := |all| - 1;
      if k <= n {
        FollowingSuffix(all[..n], p, k);
        assert all[k..] == all[..n][k..] + [all[n]];
      } else {
        FollowingSuffix(all[..n], p, n);
      }
    }
  }

  // The event was logged at a stage of the same millisecond in which its request
  // was received, and among the events of that millisecond the IDs agree with
  // the order.
  ghost predicate Settled(o: Listing, all: seq<AuditLog>, last: AuditLog) {
    && last.staged == last.received
    && forall i :: 0 <= i < |all| && all[i].received == last.received ==>
         (StrLess(all[i].auditId, last.auditId) <==> AllLess(Ties(o, all[i]), Ties(o, last)))
  }

  // A cursor continues with exactly what comes after its event if and only if
  // the event is settled; a stage never precedes its request.
  lemma ContinuesExactlyIff(o: Listing, all: seq<AuditLog>, k: nat)
    requires Sorted(o, all) && k < |all| && all[k].received <= all[k].staged
    ensures Following(all, Some(CursorOf(all[k]))) == all[k + 1..] <==> Settled(o, all, all[k])
  {
    if Settled(o, all, all[k]) {
      SettledContinues(o, all, k);
    }
    if Following(all, Some(CursorOf(all[k]))) == all[k + 1..] {
      ContinuesSettled(o, all, k);
    }
  }

  lemma SettledContinues(o: Listing, all: seq<AuditLog>, k: nat)
    requires Sorted(o, all) && k < |all| && Settled(o, all, all[k])
    ensures Following(all, Some(CursorOf(all[k]))) == all[k + 1..]
  {
    forall i | 0 <= i < |all| ensures Later(all[i], CursorOf(all[k])) <==> i >= k + 1 {
      PlaceOf(o, all, i, k);
    }
    FollowingSuffix(all, CursorOf(all[k]), k + 1);
  }

  lemma ContinuesSettled(o: Listing, all: seq<AuditLog>, k: nat)
    requires Sorted(o, all) && k < |all| && all[k].received <= all[k].staged
    requires Following(all, Some(CursorOf(all[k]))) == all[k + 1..]
    ensures Settled(o, all, all[k])
  {
    LaterThan(o, all, k, k);
    forall i | 0 <= i < |all| && all[i].received == all[k].received
      ensures StrLess(all[i].auditId, all[k].auditId) <==> AllLess(Ties(o, all[i]), Ties(o, all[k]))
    {
      LaterThan(o, all, i, k);
      PlaceOf(o, all, i, k);
    }
  }

  lemma LaterThan(o: Listing, all: seq<AuditLog>, i: nat, k: nat)
    requires Sorted(o, all) && i < |all| && k < |all|
    requires Following(all, Some(CursorOf(all[k]))) == all[k + 1..]
    ensures Later(all[i], CursorOf(all[k])) <==> i > k
  {
    FollowingMembers(all, CursorOf(all[k]), all[i]);
    InSuffix(o, all, i, k);
  }

  lemma PlaceOf(o: Listing, all: seq<AuditLog>, i: nat, k: nat)
    requires Sorted(o, all) && i < |all| && k < |all|
    ensures i > k <==> all[i].received < all[k].received || (all[i].received == all[k].received && AllLess(Ties(o, all[i]), Ties(o, all[k])))
  {
    BeforeByTime(o, all[i], all[k]);
    BeforeByTime(o, all[k], all[i]);
    AllLessAsymmetric(Ties(o, all[i]), Ties(o, all[k]));
  }

  lemma InSuffix(o: Listing, all: seq<AuditLog>, i: nat, k: nat)
    requires Sorted(o, all) && i < |all| && k < |all|
    ensures all[i] in all[k + 1..] <==> i > k
  {
    if i > k {
      assert all[k + 1..][i - k - 1] == all[i];
    }
    if all[i] in all[k + 1..] {
      var j :| 0 <= j < |all| - k - 1 && all[k + 1..][j] == all[i];
      PlaceOf(o, all, i, j + k + 1);
      PlaceOf(o, all, j + k + 1, i);
    }
  }

  // ---------------------------------------------------------------------
  // Runs of pages
  // ---------------------------------------------------------------------

  function Offset(limit: nat, n: nat): nat {
    if n == 0 then 0 else Offset(limit, n - 1) + limit
  }

  // The events of a page, and its cursor if there are more.
  predicate IsTile(all: seq<AuditLog>, limit: nat, from: nat, page: Page) {
    && from <= |all|
    && if |all| - from <= limit then page == Page(all[from..], None)
       else limit >= 1 && page == Page(all[from..from + limit], Some(CursorOf(all[from + limit - 1])))
  }

  // Of two events of one millisecond whose IDs do not follow the order, a client
  // that reads them one by one never sees the second.
  lemma EventSkipped(o: Listing, a: AuditLog, b: AuditLog)
    requires Before(o, a, b) && a.received == a.staged == b.received && StrLess(a.auditId, b.auditId)
    ensures PageNo([a, b], 1, 0) == Page([a], Some(CursorOf(a))) && PageNo([a, b], 1, 1) == Page([], None)
  {
    var all, p := [a, b], CursorOf(a);
    StrLessAsymmetric(a.auditId, b.auditId);
    StrLessAsymmetric(a.auditId, a.auditId);
    assert all[..1] == [a] && [a][..0] == [];
    assert Following([], Some(p)) == [] && Following([a], Some(p)) == [];
    assert PageNo(all, 1, 0) == Cut(all, 1);
  }

  lemma CutTile(all: seq<AuditLog>, limit: nat, from: nat)
    requires from <= |all| && limit >= 1
    ensures IsTile(all, limit, from, Cut(all[from..], limit))
  {
    if |all| - from > limit {
      assert all[from..][..limit] == all[from..from + limit];
    }
  }

  lemma NextPage(all: seq<AuditLog>, limit: nat, n: nat, p: Position)
    requires n >= 1 && PageNo(all, limit, n - 1).next == Some(p)
    ensures PageNo(all, limit, n) == Cut(Following(all, Some(p)), limit)
  {
  }

  // When all events are settled, the pages make up the result.
  lemma {:induction false} PagesTile(o: Listing, all: seq<AuditLog>, limit: nat, n: nat)
    requires Sorted(o, all) && limit >= 1 && (n == 0 || Offset(limit, n) < |all|)
    requires forall k :: 0 <= k < |all| ==> Settled(o, all, all[k])
    ensures IsTile(all, limit, Offset(limit, n), PageNo(all, limit, n))
  {
    if n == 0 {
      assert all[0..] == all;
      CutTile(all, limit, 0);
    } else {
      PagesTile(o, all, limit, n - 1);
      var from := Offset(limit, n);
      NextPage(all, limit, n, CursorOf(all[from - 1]));
      SettledContinues(o, all, from - 1);
      CutTile(all, limit, from);
    }
  }

  lemma {:induction false} FollowingAll(all: seq<AuditLog>, p: Position)
    requires forall i :: 0 <= i < |all| ==> Later(all[i], p)
    ensures Following(all, Some(p)) == all
  {
    FollowingSuffix(all, p, 0);
  }

  // If the last event of the first page reached its stage after everything on
  // that page was received, the client gets that page again, for ever.
  lemma {:induction false} SamePageForEver(o: Listing, all: seq<AuditLog>, limit: nat, n: nat)
    requires Sorted(o, all) && 1 <= limit < |all|
    requires forall i :: 0 <= i < limit ==> all[i].received < all[limit - 1].staged
    ensures PageNo(all, limit, n) == Page(all[..limit], Some(CursorOf(all[limit - 1])))
  {
    if n > 0 {
      SamePageForEver(o, all, limit, n - 1);
      var p := CursorOf(all[limit - 1]);
      forall i | 0 <= i < |all| ensures Later(all[i], p) {
        PlaceOf(o, all, i, limit - 1);
      }
      FollowingAll(all, p);
    }
  }

  lemma {:induction false} FollowingConcat(a: seq<AuditLog>, b: seq<AuditLog>, p: Position)
    ensures Following(a + b, Some(p)) == Following(a, Some(p)) + Following(b, Some(p))
    decreases |b|
  {
    if b == [] {
      assert a + b == a;
    } else {
      var n := |b| - 1;
      assert (a + b)[..|a| + n] == a + b[..n];
      FollowingConcat(a, b[..n], p);
    }
  }

  lemma SecondPage(all: seq<AuditLog>, limit: nat)
    requires 1 <= limit < |all|
    ensures PageNo(all, limit, 1) == Cut(Following(all, Some(CursorOf(all[limit - 1]))), limit)
  {
    assert PageNo(all, limit, 0) == Cut(all, limit);
  }

  // The events of the first page follow its own cursor exactly if each is later
  // than what the cursor names.
  lemma PageFollowsIff(all: seq<AuditLog>, limit: nat, p: Position)
    requires limit <= |all|
    ensures all[..limit] <= Following(all, Some(p)) <==> forall i :: 0 <= i < limit ==> Later(all[i], p)
  {
    var following := Following(all, Some(p));
    if all[..limit] <= following {
      forall i | 0 <= i < limit ensures Later(all[i], p) {
        assert all[..limit][i] == all[i] && following[i] == all[i];
        FollowingMembers(all, p, all[i]);
      }
    }
    if forall i :: 0 <= i < limit ==> Later(all[i], p) {
      assert all == all[..limit] + all[limit..];
      FollowingConcat(all[..limit], all[limit..], p);
      FollowingAll(all[..limit], p);
    }
  }

  lemma CutStarts(events: seq<AuditLog>, first: seq<AuditLog>, limit: nat)
    requires |first| == limit
    ensures Cut(events, limit).events == first <==> first <= events
  {
  }

  // The second page is the first one again exactly if each of its events is
  // later than what its own cursor names.
  lemma SamePageIff(all: seq<AuditLog>, limit: nat)
    requires 1 <= limit < |all|
    ensures PageNo(all, limit, 1).events == all[..limit] <==>
            forall i :: 0 <= i < limit ==> Later(all[i], CursorOf(all[limit - 1]))
  {
    var p := CursorOf(all[limit - 1]);
    SecondPage(all, limit);
    PageFollowsIff(all, limit, p);
    CutStarts(Following(all, Some(p)), all[..limit], limit);
  }
}
