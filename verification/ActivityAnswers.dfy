/**
 Requests for activities: which are refused, and which activities the query
 that is built for one selects.
 */
module ActivityAnswers {
  import opened Prelude
  import Strings
  import opened CelSyntax
  import opened SqlSyntax
  import opened CelConverter
  import opened FilterParsing
  import opened FilterMeaning
  import opened Activities
  import opened Keyset
  import opened WhereClause
  import opened ConditionLists
  import opened ParameterText
  import opened ClauseBuilding
  import opened QueryBuilder

  // ---------------------------------------------------------------------
  // What a request asks for
  // ---------------------------------------------------------------------

  // What a user did, and the platform's events about the user's own account.
  predicate InScope(a: Activity, scope: Scope) {
    match scope
    case PlatformScope => true
    case UserScope(uid) =>
      || a.actor.uid == uid
      || (&& a.originType == "event" && a.resource.apiGroup == "iam.miloapis.com"
          && a.resource.kind == "User" && a.resource.name == uid)
    case TenantScope(kind, name) => a.tenantType == kind && a.tenantName == name
  }

  // Not before the start and before the end.
  predicate InTime(r: Request, spec: Spec, t: int) {
    && (spec.startTime != "" ==> r.parseFlexible(spec.startTime, r.now).Some? && r.parseFlexible(spec.startTime, r.now).value <= t)
    && (spec.endTime != "" ==> r.parseFlexible(spec.endTime, r.now).Some? && t < r.parseFlexible(spec.endTime, r.now).value)
  }

  // One of the words occurs in the summary, whatever its case.
  predicate Mentions(a: Activity, search: string) {
    var words := Strings.Fields(search);
    words != [] ==> exists i :: 0 <= i < |words| && Strings.Contains(Strings.Lower(a.summary), Strings.Lower(words[i]))
  }

  // Later in the list than where the last page ended: older, or of the same
  // time and of a smaller name.
  predicate Later(a: Activity, p: Position) {
    a.timestamp < p.timestamp || (a.timestamp == p.timestamp && Strings.StrLess(a.name, p.name))
  }

  predicate Asks(r: Request, scope: Scope, spec: Spec, a: Activity) {
    && InScope(a, scope) && InTime(r, spec, a.timestamp) && Mentions(a, spec.search)
    && (spec.filter.Some? ==> EvaluateActivity(r.d, spec.filter.value, a) == Some(true))
    && (spec.continueToken.Some? ==> spec.continueToken.value.Some? && Later(a, spec.continueToken.value.value.position))
  }

  // What is wrong with a continue token: it does not decode, it is of another
  // query, or it is older than an hour.
  function TokenRefusal(token: Option<CursorToken>, queryHash: string, now: int): Option<CursorError> {
    match token
    case None => Some(InvalidToken)
    case Some(CursorToken(position, hash, issuedAt)) =>
      if position.name == "" then Some(InvalidToken)
      else if hash != queryHash then Some(ParametersChanged)
      else if issuedAt + 3_600_000 < now then Some(TokenExpired)
      else None
  }

  // The first thing that is wrong with a request.
  function Refusal(r: Request, spec: Spec): Option<QueryError> {
    if spec.startTime != "" && r.parseFlexible(spec.startTime, r.now).None? then Some(InvalidStartTime)
    else if spec.endTime != "" && r.parseFlexible(spec.endTime, r.now).None? then Some(InvalidEndTime)
    else if spec.filter.Some? && !ValidateFieldAccess(r.d.domain, spec.filter.value) then Some(InvalidField)
    else if spec.filter.Some? && Emit(r.d, spec.filter.value, 1).Err? then Some(InvalidFilter(Emit(r.d, spec.filter.value, 1).error))
    else if spec.continueToken.None? then None
    else match TokenRefusal(spec.continueToken.value, r.queryHash, r.now)
      case Some(e) => Some(InvalidCursor(e))
      case None => None
  }

  lemma RefusedFor(r: Request, scope: Scope, spec: Spec)
    ensures match Refusal(r, spec)
      case Some(e) => Requested(r, scope, spec) == Err(e)
      case None => Requested(r, scope, spec).Ok?
  {
  }

  // ---------------------------------------------------------------------
  // What the query selects
  // ---------------------------------------------------------------------

  // Whether ClickHouse keeps the row, with the query's WHERE text and arguments.
  function Keeps(q: Query, row: Row): Option<bool> {
    if q.whereText == "" then Some(true)
    else if " WHERE " <= q.whereText then RowSelected(row, q.args, q.whereText[|" WHERE "|..])
    else None
  }

  lemma PassConcat(d: Dialect, cs: seq<Condition>, more: seq<Condition>, a: Activity)
    ensures AllPass(d, cs + more, a) <==> AllPass(d, cs, a) && AllPass(d, more, a)
  {
    var all := cs + more;
    if AllPass(d, all, a) {
      forall i | 0 <= i < |cs| ensures Passes(d, cs[i], a) {
        assert Passes(d, all[i], a);
      }
      forall i | 0 <= i < |more| ensures Passes(d, more[i], a) {
        assert Passes(d, all[|cs| + i], a);
      }
    }
  }

  lemma ScopePass(d: Dialect, scope: Scope, a: Activity)
    ensures AllPass(d, ScopeConditions(scope), a) <==> InScope(a, scope)
  {
    var cs := ScopeConditions(scope);
    match scope
    case PlatformScope =>
    case UserScope(uid) => assert Passes(d, cs[0], a) <==> InScope(a, scope);
    case TenantScope(_, _) => assert Passes(d, cs[0], a) && Passes(d, cs[1], a) <==> InScope(a, scope);
  }

  lemma OnePass(d: Dialect, c: Condition, a: Activity)
    ensures AllPass(d, [c], a) <==> Passes(d, c, a)
  {
    assert [c][0] == c;
  }

  lemma TimePass(r: Request, spec: Spec, a: Activity)
    requires Refusal(r, spec).None?
    ensures var started := TimeBound(r.parseFlexible, r.now, spec.startTime, Starting, InvalidStartTime);
      var ended := TimeBound(r.parseFlexible, r.now, spec.endTime, Ending, InvalidEndTime);
      && started.Ok? && ended.Ok?
      && (AllPass(r.d, started.value, a) && AllPass(r.d, ended.value, a) <==> InTime(r, spec, a.timestamp))
  {
    if spec.startTime != "" {
      OnePass(r.d, From(r.parseFlexible(spec.startTime, r.now).value), a);
    }
    if spec.endTime != "" {
      OnePass(r.d, Until(r.parseFlexible(spec.endTime, r.now).value), a);
    }
  }

  lemma SearchPass(d: Dialect, search: string, a: Activity)
    ensures AllPass(d, SearchConditions(search), a) <==> Mentions(a, search)
  {
    OnePass(d, Matching(Strings.Fields(search)), a);
  }

  lemma LaterPass(d: Dialect, p: Position, a: Activity)
    ensures AllPass(d, [Past(p)], a) <==> Later(a, p)
  {
    OnePass(d, Past(p), a);
    var start := a.(timestamp := p.timestamp, name := p.name);
    CursorMeansAfter(start, a);
    BeforeIsByTime(start, a);
  }

  lemma RestPass(r: Request, spec: Spec, a: Activity)
    requires Refusal(r, spec).None?
    ensures var filtered := FilterConditions(r.d, spec.filter, ByFilter);
      var placed := CursorConditions(Decoded(r, spec.continueToken), Beyond);
      && filtered.Ok? && placed.Ok?
      && (AllPass(r.d, filtered.value, a) <==>
            (spec.filter.Some? ==> EvaluateActivity(r.d, spec.filter.value, a) == Some(true)))
      && (AllPass(r.d, placed.value, a) <==>
            (spec.continueToken.Some? ==> spec.continueToken.value.Some? && Later(a, spec.continueToken.value.value.position)))
  {
    if spec.filter.Some? {
      OnePass(r.d, Filtered(spec.filter.value), a);
    }
    if spec.continueToken.Some? {
      LaterPass(r.d, spec.continueToken.value.value.position, a);
    }
  }

  lemma RequestedPass(r: Request, scope: Scope, spec: Spec, a: Activity)
    requires Requested(r, scope, spec).Ok?
    ensures AllPass(r.d, Requested(r, scope, spec).value, a) <==> Asks(r, scope, spec, a)
  {
    RefusedFor(r, scope, spec);
    var started := TimeBound(r.parseFlexible, r.now, spec.startTime, Starting, InvalidStartTime).value;
    var ended := TimeBound(r.parseFlexible, r.now, spec.endTime, Ending, InvalidEndTime).value;
    var filtered := FilterConditions(r.d, spec.filter, ByFilter).value;
    var placed := CursorConditions(Decoded(r, spec.continueToken), Beyond).value;
    var scoped, found := ScopeConditions(scope), SearchConditions(spec.search);
    PassConcat(r.d, scoped, started, a);
    PassConcat(r.d, scoped + started, ended, a);
    PassConcat(r.d, scoped + started + ended, found, a);
    PassConcat(r.d, scoped + started + ended + found, filtered, a);
    PassConcat(r.d, scoped + started + ended + found + filtered, placed, a);
    ScopePass(r.d, scope, a);
    TimePass(r, spec, a);
    SearchPass(r.d, spec.search, a);
    RestPass(r, spec, a);
  }

  // A filter of the request is typed, and its text keeps its meaning.
  predicate Settled(r: Request, spec: Spec) {
    r.d.domain == ActivityDomain &&
    (spec.filter.Some? ==> Safe(r.d, spec.filter.value) && TypeOf(r.d, spec.filter.value) == Some(TBool))
  }

  lemma MeaningfulConcat(d: Dialect, cs: seq<Condition>, more: seq<Condition>)
    requires AllMeaningful(d, cs) && AllMeaningful(d, more)
    ensures AllMeaningful(d, cs + more)
  {
  }

  lemma RangedMeaningful(r: Request, scope: Scope, spec: Spec)
    requires Ranged(r, scope, spec).Ok?
    ensures AllMeaningful(r.d, Ranged(r, scope, spec).value)
  {
  }

  lemma RequestedMeaningful(r: Request, scope: Scope, spec: Spec)
    requires Requested(r, scope, spec).Ok? && Settled(r, spec)
    ensures AllMeaningful(r.d, Requested(r, scope, spec).value)
  {
    RangedMeaningful(r, scope, spec);
    var ranged, found := Ranged(r, scope, spec).value, SearchConditions(spec.search);
    var filtered := FilterConditions(r.d, spec.filter, ByFilter).value;
    var placed := CursorConditions(Decoded(r, spec.continueToken), Beyond).value;
    MeaningfulConcat(r.d, ranged, found);
    MeaningfulConcat(r.d, ranged + found, filtered);
    MeaningfulConcat(r.d, ranged + found + filtered, placed);
  }

  // The query built for a request that is not refused keeps exactly the rows of
  // the activities that the request asks for.
  lemma RequestSelects(r: Request, scope: Scope, spec: Spec, a: Activity)
    requires Requested(r, scope, spec).Ok? && Settled(r, spec)
    ensures Keeps(WhereOf(r.d, Requested(r, scope, spec).value), RowOf(a)) == Some(Asks(r, scope, spec, a))
  {
    var cs := Requested(r, scope, spec).value;
    RequestedPass(r, scope, spec, a);
    if cs != [] {
      RequestedMeaningful(r, scope, spec);
      ClauseSelects(r.d, cs, a);
      var text := Text(Blanked(Clause(PartsOf(r.d, cs))));
      assert (" WHERE " + text)[|" WHERE "|..] == text;
    }
  }
}
