/**
 Requests for audit logs: which are refused, and which logged events the query
 that is built for one selects.
 */
module AuditAnswers {
  import opened Prelude
  import Strings
  import opened CelSyntax
  import opened SqlSyntax
  import opened CelConverter
  import opened FilterParsing
  import opened FilterMeaning
  import opened AuditLogs
  import opened ConditionLists
  import opened ParameterText
  import opened ClauseBuilding
  import opened AuditQueries
  import K = Keyset
  import A = ActivityAnswers

  // ---------------------------------------------------------------------
  // What a request asks for
  // ---------------------------------------------------------------------

  // A user's scope is what the user did, anywhere.
  predicate InScope(log: AuditLog, scope: Scope) {
    match scope
    case PlatformScope => true
    case UserScope(uid) => log.uid == uid
    case TenantScope(kind, name) => log.scopeType == kind && log.scopeName == name
  }

  // Not before the start and before the end.
  predicate InTime(r: Request, spec: Spec, t: int) {
    && (spec.startTime != "" ==> r.parseFlexible(spec.startTime, r.now).Some? && r.parseFlexible(spec.startTime, r.now).value <= t)
    && (spec.endTime != "" ==> r.parseFlexible(spec.endTime, r.now).Some? && t < r.parseFlexible(spec.endTime, r.now).value)
  }

  // Later in the list than where the last page ended.
  predicate Later(log: AuditLog, p: Position) {
    log.received < p.timestamp || (log.received == p.timestamp && Strings.StrLess(log.auditId, p.auditId))
  }

  predicate Wants(r: Request, scope: Scope, spec: Spec, log: AuditLog) {
    && InScope(log, scope) && InTime(r, spec, log.received)
    && (spec.filter.Some? ==> CelEval(r.Dialect(), LogToMap(log), spec.filter.value) == Some(VBool(true)))
    && (spec.continueToken.Some? ==> spec.continueToken.value.Some? && Later(log, spec.continueToken.value.value.position))
  }

  // What is wrong with a continue token: it does not decode, it is of another
  // query, it has no issue time, or it is older than an hour.
  function TokenRefusal(token: Option<ContinueToken>, queryHash: string, now: int): Option<K.CursorError> {
    match token
    case None => Some(K.InvalidToken)
    case Some(ContinueToken(_, hash, None)) => Some(if hash == queryHash then K.InvalidToken else K.ParametersChanged)
    case Some(ContinueToken(_, hash, Some(issuedAt))) =>
      if hash != queryHash then Some(K.ParametersChanged)
      else if issuedAt + 3_600_000 < now then Some(K.TokenExpired)
      else None
  }

  // The first thing that is wrong with a request.
  function Refusal(r: Request, spec: Spec): Option<QueryError> {
    if spec.startTime != "" && r.parseFlexible(spec.startTime, r.now).None? then Some(InvalidStartTime)
    else if spec.endTime != "" && r.parseFlexible(spec.endTime, r.now).None? then Some(InvalidEndTime)
    else if spec.filter.Some? && !ValidateFieldAccess(AuditDomain, spec.filter.value) then Some(InvalidField)
    else if spec.filter.Some? && Emit(r.Dialect(), spec.filter.value, 1).Err? then
      Some(InvalidFilter(Emit(r.Dialect(), spec.filter.value, 1).error))
    else if spec.continueToken.None? then None
    else match TokenRefusal(spec.continueToken.value, r.queryHash, r.now)
      case Some(e) => Some(InvalidCursor(e))
      case None => None
  }

  lemma RefusedFor(r: Request, scope: Scope, spec: Spec)
    ensures match Refusal(r, spec)
      case Some(e) => Requested(r, scope, spec) == Err(e)
      case None => Requested(r, scope, spec).Ok?
  {
  }

  // ---------------------------------------------------------------------
  // What the query selects
  // ---------------------------------------------------------------------

  ghost predicate AllAsk(d: Dialect, cs: seq<Condition>, log: AuditLog) {
    forall i :: 0 <= i < |cs| ==> Asks(d, cs[i], log)
  }

  lemma AskConcat(d: Dialect, cs: seq<Condition>, more: seq<Condition>, log: AuditLog)
    ensures AllAsk(d, cs + more, log) <==> AllAsk(d, cs, log) && AllAsk(d, more, log)
  {
    var all := cs + more;
    if AllAsk(d, all, log) {
      forall i | 0 <= i < |cs| ensures Asks(d, cs[i], log) {
        assert Asks(d, all[i], log);
      }
      forall i | 0 <= i < |more| ensures Asks(d, more[i], log) {
        assert Asks(d, all[|cs| + i], log);
      }
    }
  }

  lemma AskOne(d: Dialect, c: Condition, log: AuditLog)
    ensures AllAsk(d, [c], log) <==> Asks(d, c, log)
  {
    assert [c][0] == c;
  }

  lemma ScopeAsk(d: Dialect, scope: Scope, log: AuditLog)
    ensures AllAsk(d, ScopeConditions(scope), log) <==> InScope(log, scope)
  {
    var cs := ScopeConditions(scope);
    match scope
    case PlatformScope =>
    case UserScope(_) => assert Asks(d, cs[0], log) <==> InScope(log, scope);
    case TenantScope(_, _) => assert Asks(d, cs[0], log) && Asks(d, cs[1], log) <==> InScope(log, scope);
  }

  lemma TimeAsk(r: Request, spec: Spec, log: AuditLog)
    requires Refusal(r, spec).None?
    ensures var started := TimeBound(r.parseFlexible, r.now, spec.startTime, Starting, InvalidStartTime);
      var ended := TimeBound(r.parseFlexible, r.now, spec.endTime, Ending, InvalidEndTime);
      && started.Ok? && ended.Ok?
      && (AllAsk(r.Dialect(), started.value, log) && AllAsk(r.Dialect(), ended.value, log) <==> InTime(r, spec, log.received))
  {
    if spec.startTime != "" {
      AskOne(r.Dialect(), From(r.parseFlexible(spec.startTime, r.now).value), log);
    }
    if spec.endTime != "" {
      AskOne(r.Dialect(), Until(r.parseFlexible(spec.endTime, r.now).value), log);
    }
  }

  // Hour buckets do not matter to the order.
  lemma LaterAsk(d: Dialect, p: Position, log: AuditLog)
    ensures AllAsk(d, [Past(p)], log) <==> Later(log, p)
  {
    AskOne(d, Past(p), log);
  }

  lemma RestAsk(r: Request, spec: Spec, log: AuditLog)
    requires Refusal(r, spec).None?
    ensures var filtered := FilterConditions(r.Dialect(), spec.filter, ByFilter);
      var placed := CursorConditions(Decoded(r, spec.continueToken), Beyond);
      && filtered.Ok? && placed.Ok?
      && (AllAsk(r.Dialect(), filtered.value, log) <==>
            (spec.filter.Some? ==> CelEval(r.Dialect(), LogToMap(log), spec.filter.value) == Some(VBool(true))))
      && (AllAsk(r.Dialect(), placed.value, log) <==>
            (spec.continueToken.Some? ==> spec.continueToken.value.Some? && Later(log, spec.continueToken.value.value.position)))
  {
    if spec.filter.Some? {
      AskOne(r.Dialect(), Filtered(spec.filter.value), log);
    }
    if spec.continueToken.Some? {
      LaterAsk(r.Dialect(), spec.continueToken.value.value.position, log);
    }
  }

  lemma RequestedAsk(r: Request, scope: Scope, spec: Spec, log: AuditLog)
    requires Requested(r, scope, spec).Ok?
    ensures AllAsk(r.Dialect(), Requested(r, scope, spec).value, log) <==> Wants(r, scope, spec, log)
  {
    RefusedFor(r, scope, spec);
    var d := r.Dialect();
    var started := TimeBound(r.parseFlexible, r.now, spec.startTime, Starting, InvalidStartTime).value;
    var ended := TimeBound(r.parseFlexible, r.now, spec.endTime, Ending, InvalidEndTime).value;
    var filtered := FilterConditions(d, spec.filter, ByFilter).value;
    var placed := CursorConditions(Decoded(r, spec.continueToken), Beyond).value;
    var scoped := ScopeConditions(scope);
    AskConcat(d, scoped, started, log);
    AskConcat(d, scoped + started, ended, log);
    AskConcat(d, filtered, placed, log);
    AskConcat(d, scoped + started + ended + filtered, placed, log);
    AskConcat(d, scoped + started + ended, filtered, log);
    ScopeAsk(d, scope, log);
    TimeAsk(r, spec, log);
    RestAsk(r, spec, log);
  }

  // A filter of the request is typed, and its text keeps its meaning.
  predicate Settled(r: Request, spec: Spec) {
    spec.filter.Some? ==> Safe(r.Dialect(), spec.filter.value) && TypeOf(r.Dialect(), spec.filter.value) == Some(TBool)
  }

  // The conditions' filters are accepted, typed and keep their meaning.
  predicate Plain(d: Dialect, cs: seq<Condition>) {
    forall i :: 0 <= i < |cs| && cs[i].Filtered? ==> Emit(d, cs[i].e, 1).Ok? && Safe(d, cs[i].e) && TypeOf(d, cs[i].e) == Some(TBool)
  }

  lemma PlainConcat(d: Dialect, cs: seq<Condition>, more: seq<Condition>)
    requires Plain(d, cs) && Plain(d, more)
    ensures Plain(d, cs + more)
  {
  }

  lemma RequestedPlain(r: Request, scope: Scope, spec: Spec)
    requires Requested(r, scope, spec).Ok? && Settled(r, spec)
    ensures Plain(r.Dialect(), Requested(r, scope, spec).value)
  {
    var d := r.Dialect();
    var started := TimeBound(r.parseFlexible, r.now, spec.startTime, Starting, InvalidStartTime).value;
    var ended := TimeBound(r.parseFlexible, r.now, spec.endTime, Ending, InvalidEndTime).value;
    var filtered := FilterConditions(d, spec.filter, ByFilter).value;
    var placed := CursorConditions(Decoded(r, spec.continueToken), Beyond).value;
    var scoped := ScopeConditions(scope);
    PlainConcat(d, scoped, started);
    PlainConcat(d, scoped + started, ended);
    PlainConcat(d, scoped + started + ended, filtered);
    PlainConcat(d, scoped + started + ended + filtered, placed);
  }

  // The query built for a request that is not refused keeps exactly the rows of
  // the events that the request asks for.
  lemma RequestSelects(r: Request, scope: Scope, spec: Spec, cols: Columns, log: AuditLog)
    requires Requested(r, scope, spec).Ok? && Settled(r, spec) && Fits(cols, log)
    ensures A.Keeps(WhereOf(r.Dialect(), Requested(r, scope, spec).value), LogRow(cols, log)) == Some(Wants(r, scope, spec, log))
  {
    var cs := Requested(r, scope, spec).value;
    RequestedAsk(r, scope, spec, log);
    if cs != [] {
      RequestedPlain(r, scope, spec);
      ClauseSelects(r.Dialect(), cs, cols, log);
      var text := Text(Blanked(Clause(PartsOf(r.Dialect(), cs))));
      assert (" WHERE " + text)[|" WHERE "|..] == text;
    }
  }
}
