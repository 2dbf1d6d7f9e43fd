/**
 The builder of an activity query: it adds the requested conditions and their
 arguments step by step, and what it ends up with is the whole clause.
 */
module QueryBuilder {
  import opened Prelude
  import Strings
  import opened CelSyntax
  import opened SqlSyntax
  import opened CelConverter
  import opened FilterMeaning
  import opened Activities
  import opened Keyset
  import opened SqlPrinting
  import opened SqlRendering
  import opened ConditionLists
  import opened SqlConverter
  import opened ParameterText
  import opened FilterReading
  import opened WhereClause
  import opened ClauseBuilding

  datatype Scope = PlatformScope | UserScope(uid: string) | TenantScope(kind: string, name: string)

  datatype Spec = Spec(
    startTime: string,
    endTime: string,
    search: string,
    filter: Option<Expr>,
    continueToken: Option<Option<CursorToken>>)

  // The surroundings of one request: the clock, the flexible time parser and
  // the hash of the query's parameters.
  datatype Request = Request(d: Dialect, now: int, parseFlexible: (string, int) -> Option<int>, queryHash: string)

  // ---------------------------------------------------------------------
  // The texts of the conditions
  // ---------------------------------------------------------------------

  // The fixed conditions as the builder writes them.
  function FixedText(c: Condition): string
    requires !c.Filtered?
  {
    match c
    case ByOrAboutUser(_) =>
      "(" + ("actor_uid = ?" + " OR " +
             ("(" + ((("origin_type = 'event'" + " AND " + "api_group = 'iam.miloapis.com'") + " AND " +
                      "resource_kind = 'User'") + " AND " + "resource_name = ?") + ")")) + ")"
    case InTenantType(_) => "tenant_type = ?"
    case InTenantName(_) => "tenant_name = ?"
    case From(_) => "timestamp >= ?"
    case Until(_) => "timestamp < ?"
    case Matching(_) => "multiSearchAnyCaseInsensitive(" + "summary, ?" + ") > 0"
    case Past(_) =>
      "(" + (("toStartOfHour(timestamp) < toStartOfHour(?)" + " OR " +
              ("(" + ("toStartOfHour(timestamp) = toStartOfHour(?)" + " AND " + "timestamp < ?") + ")")) + " OR " +
             ("(" + ("timestamp = ?" + " AND " + "activity_name < ?") + ")")) + ")"
  }

  lemma HourText(op: CompareOp, k: nat, text: string)
    requires text == "toStartOfHour(timestamp)" + " " + Spelling(op) + " " + "toStartOfHour(?)"
    ensures Render(HourIs(op, k)) == text
  {
    HourCall(Col(Timestamp), "timestamp", "toStartOfHour(timestamp)");
    HourCall(Param(k), "?", "toStartOfHour(?)");
  }

  lemma HourCall(x: Sql, inner: string, text: string)
    requires IsTerm(x) && RenderTerm(x) == inner && text == "toStartOfHour" + "(" + inner + ")"
    ensures RenderTerm(Func(FnHour, [x])) == text
  {
    assert inner + "" == inner;
    assert "toStartOfHour" + "(" + inner + "" == "toStartOfHour" + "(" + inner;
  }

  lemma ColumnText(op: CompareOp, c: Column, k: nat, text: string)
    requires text == ColumnName(c) + " " + Spelling(op) + " " + "?"
    ensures Render(ColumnIs(op, c, Param(k))) == text
  {
  }

  lemma LiteralText(c: Column, value: string, text: string)
    requires text == ColumnName(c) + " " + "=" + " " + ("'" + value + "'")
    ensures Render(ColumnIs(Eq, c, Lit(value))) == text
  {
  }

  // Joining and enclosing rendered conditions.
  lemma AndText(l: Sql, r: Sql, a: string, b: string)
    requires IsCondition(l) && IsCondition(r) && RenderAnd(l) == a && Render(r) == b
    ensures RenderAnd(AndOf(l, r)) == a + " AND " + b
    ensures Render(AndOf(l, r)) == "(" + (a + " AND " + b) + ")"
  {
  }

  lemma OrText(l: Sql, r: Sql, a: string, b: string)
    requires IsCondition(l) && IsCondition(r) && RenderOr(l) == a && Render(r) == b
    ensures RenderOr(OrOf(l, r)) == a + " OR " + b
    ensures Render(OrOf(l, r)) == "(" + (a + " OR " + b) + ")"
  {
  }

  // v OR (w AND x) OR (y AND z)
  lemma ThreeWays(v: Sql, w: Sql, x: Sql, y: Sql, z: Sql, a: string, b: string, c: string, e: string, f: string)
    requires v.Cmp? && w.Cmp? && y.Cmp? && IsCondition(v) && IsCondition(w) && IsCondition(y)
    requires IsCondition(x) && IsCondition(z) && Render(v) == a && Render(w) == b && Render(x) == c
    requires Render(y) == e && Render(z) == f
    ensures Render(OrOf(OrOf(v, AndOf(w, x)), AndOf(y, z))) ==
            "(" + ((a + " OR " + ("(" + (b + " AND " + c) + ")")) + " OR " + ("(" + (e + " AND " + f) + ")")) + ")"
  {
    AndText(w, x, b, c);
    AndText(y, z, e, f);
    OrText(v, AndOf(w, x), a, "(" + (b + " AND " + c) + ")");
    OrText(OrOf(v, AndOf(w, x)), AndOf(y, z), a + " OR " + ("(" + (b + " AND " + c) + ")"), "(" + (e + " AND " + f) + ")");
  }

  // u OR (w AND x AND y AND z)
  lemma OrAllFour(u: Sql, w: Sql, x: Sql, y: Sql, z: Sql, a: string, b: string, c: string, e: string, f: string)
    requires u.Cmp? && w.Cmp? && IsCondition(u) && IsCondition(w) && IsCondition(x) && IsCondition(y) && IsCondition(z)
    requires Render(u) == a && Render(w) == b && Render(x) == c && Render(y) == e && Render(z) == f
    ensures Render(OrOf(u, AndOf(AndOf(AndOf(w, x), y), z))) ==
            "(" + (a + " OR " + ("(" + (((b + " AND " + c) + " AND " + e) + " AND " + f) + ")")) + ")"
  {
    AndText(w, x, b, c);
    AndText(AndOf(w, x), y, b + " AND " + c, e);
    AndText(AndOf(AndOf(w, x), y), z, (b + " AND " + c) + " AND " + e, f);
    OrText(u, AndOf(AndOf(AndOf(w, x), y), z), a, "(" + (((b + " AND " + c) + " AND " + e) + " AND " + f) + ")");
  }

  lemma BeforeText(k: nat)
    ensures Render(ColumnIs(Lt, Timestamp, Param(k))) == "timestamp < ?"
  {
    ColumnText(Lt, Timestamp, k, "timestamp < ?");
  }

  lemma SameTimeText(k: nat)
    ensures Render(ColumnIs(Eq, Timestamp, Param(k))) == "timestamp = ?"
  {
    ColumnText(Eq, Timestamp, k, "timestamp = ?");
  }

  lemma NameText(k: nat)
    ensures Render(ColumnIs(Lt, ActivityName, Param(k))) == "activity_name < ?"
  {
    ColumnText(Lt, ActivityName, k, "activity_name < ?");
  }

  lemma EarlierHourText(k: nat)
    ensures Render(HourIs(Lt, k)) == "toStartOfHour(timestamp) < toStartOfHour(?)"
  {
    HourText(Lt, k, "toStartOfHour(timestamp) < toStartOfHour(?)");
  }

  lemma SameHourText(k: nat)
    ensures Render(HourIs(Eq, k)) == "toStartOfHour(timestamp) = toStartOfHour(?)"
  {
    HourText(Eq, k, "toStartOfHour(timestamp) = toStartOfHour(?)");
  }

  lemma PastText(k: nat)
    ensures Render(Tree(Past(Position(0, "")), k)) == FixedText(Past(Position(0, "")))
  {
    EarlierHourText(k);
    SameHourText(k + 1);
    BeforeText(k + 2);
    SameTimeText(k + 3);
    NameText(k + 4);
    ThreeWays(HourIs(Lt, k), HourIs(Eq, k + 1), ColumnIs(Lt, Timestamp, Param(k + 2)), ColumnIs(Eq, Timestamp, Param(k + 3)),
              ColumnIs(Lt, ActivityName, Param(k + 4)), "toStartOfHour(timestamp) < toStartOfHour(?)",
              "toStartOfHour(timestamp) = toStartOfHour(?)", "timestamp < ?", "timestamp = ?", "activity_name < ?");
  }

  lemma OriginText()
    ensures Render(ColumnIs(Eq, OriginType, Lit("event"))) == "origin_type = 'event'"
  {
    LiteralText(OriginType, "event", "origin_type = 'event'");
  }

  lemma GroupText()
    ensures Render(ColumnIs(Eq, ApiGroup, Lit("iam.miloapis.com"))) == "api_group = 'iam.miloapis.com'"
  {
    LiteralText(ApiGroup, "iam.miloapis.com", "api_group = 'iam.miloapis.com'");
  }

  lemma KindText()
    ensures Render(ColumnIs(Eq, ResourceKind, Lit("User"))) == "resource_kind = 'User'"
  {
    LiteralText(ResourceKind, "User", "resource_kind = 'User'");
  }

  lemma ActorText(k: nat)
    ensures Render(ColumnIs(Eq, ActorUID, Param(k))) == "actor_uid = ?"
  {
    ColumnText(Eq, ActorUID, k, "actor_uid = ?");
  }

  lemma ResourceText(k: nat)
    ensures Render(ColumnIs(Eq, ResourceName, Param(k))) == "resource_name = ?"
  {
    ColumnText(Eq, ResourceName, k, "resource_name = ?");
  }

  lemma UserText(uid: string, k: nat)
    ensures Render(Tree(ByOrAboutUser(uid), k)) == FixedText(ByOrAboutUser(uid))
  {
    ActorText(k);
    OriginText();
    GroupText();
    KindText();
    ResourceText(k + 1);
    OrAllFour(ColumnIs(Eq, ActorUID, Param(k)), ColumnIs(Eq, OriginType, Lit("event")),
              ColumnIs(Eq, ApiGroup, Lit("iam.miloapis.com")), ColumnIs(Eq, ResourceKind, Lit("User")),
              ColumnIs(Eq, ResourceName, Param(k + 1)), "actor_uid = ?", "origin_type = 'event'",
              "api_group = 'iam.miloapis.com'", "resource_kind = 'User'", "resource_name = ?");
  }

  lemma SearchCall(k: nat)
    ensures RenderTerm(Func(FnSearch, [Col(Summary), Param(k)])) == "multiSearchAnyCaseInsensitive(" + "summary, ?" + ")"
  {
    assert "multiSearchAnyCaseInsensitive" + "(" == "multiSearchAnyCaseInsensitive(";
    JoinedCall("multiSearchAnyCaseInsensitive(", "summary", ", " + "?", "summary, ?");
  }

  lemma JoinedCall(f: string, a: string, b: string, ab: string)
    requires ab == a + b
    ensures f + a + b + ")" == f + ab + ")"
  {
    assert f + a + b == f + (a + b);
  }

  lemma SearchText(k: nat)
    ensures Render(SummaryHasAny(k)) == FixedText(Matching([]))
  {
    SearchCall(k);
    assert Decimal(0) == "0" && ")" + " " + ">" + " " + "0" == ") > 0";
    ComparedCall("multiSearchAnyCaseInsensitive(", "summary, ?");
  }

  lemma ComparedCall(f: string, a: string)
    requires ")" + " " + ">" + " " + "0" == ") > 0"
    ensures f + a + ")" + " " + ">" + " " + "0" == f + a + ") > 0"
  {
    assert f + a + ")" + " " + ">" + " " + "0" == f + a + (")" + " " + ">" + " " + "0");
  }

  // What the builder writes is the text of the condition's tree, wherever its
  // parameters stand.
  lemma TenantTypeText(k: nat)
    ensures Render(ColumnIs(Eq, TenantType, Param(k))) == "tenant_type = ?"
  {
    ColumnText(Eq, TenantType, k, "tenant_type = ?");
  }

  lemma TenantNameText(k: nat)
    ensures Render(ColumnIs(Eq, TenantName, Param(k))) == "tenant_name = ?"
  {
    ColumnText(Eq, TenantName, k, "tenant_name = ?");
  }

  lemma FromText(k: nat)
    ensures Render(ColumnIs(Ge, Timestamp, Param(k))) == "timestamp >= ?"
  {
    ColumnText(Ge, Timestamp, k, "timestamp >= ?");
  }

  lemma FixedTextIs(c: Condition, k: nat)
    requires !c.Filtered?
    ensures Render(Tree(c, k)) == FixedText(c)
  {
    match c
    case ByOrAboutUser(uid) => UserText(uid, k);
    case InTenantType(_) => TenantTypeText(k);
    case InTenantName(_) => TenantNameText(k);
    case From(_) => FromText(k);
    case Until(_) => BeforeText(k);
    case Matching(_) => SearchText(k);
    case Past(_) => PastText(k);
  }

  function ConditionText(d: Dialect, c: Condition): string {
    if c.Filtered? then Spelled(FilterFragment(d, c.e, 1).tokens) else FixedText(c)
  }

  function Words(d: Dialect): Wording<Condition> {
    Wording((c: Condition) => ConditionText(d, c), (c: Condition) => Values(d, c))
  }

  lemma ConditionSpelled(d: Dialect, c: Condition)
    ensures SpelledAs(Layout(d), c, ConditionText(d, c))
  {
    forall k: nat ensures Text(Blanked(Layout(d)(c, k).tokens)) == ConditionText(d, c) {
      if c.Filtered? {
        FilterOffset(d, c.e, 1, k);
      } else {
        FixedTextIs(c, k);
        SqlRendering.ConditionSpelled(Tree(c, k));
      }
    }
  }

  // The builder's joined texts are the clause.
  lemma TextsJoined(d: Dialect, cs: seq<Condition>)
    ensures Strings.Join(Words(d).Texts(cs), " AND ") == Text(Blanked(Clause(PartsOf(d, cs))))
  {
    forall i | 0 <= i < |cs| ensures SpelledAs(Layout(d), cs[i], Words(d).Texts(cs)[i]) {
      ConditionSpelled(d, cs[i]);
    }
    LaidTexts(Layout(d), cs, 1, Words(d).Texts(cs));
    JoinedTexts(PartsOf(d, cs));
  }

  lemma ValuesCollected(d: Dialect, cs: seq<Condition>)
    ensures Flat(Words(d).Values(cs)) == AllValues(PartsOf(d, cs))
  {
    LaidValues(Layout(d), cs, 1, Words(d).Values(cs));
  }

  // ---------------------------------------------------------------------
  // The builder
  // ---------------------------------------------------------------------

  function ScopeConditions(scope: Scope): seq<Condition> {
    match scope
    case PlatformScope => []
    case UserScope(uid) => [ByOrAboutUser(uid)]
    case TenantScope(kind, name) => [InTenantType(kind), InTenantName(name)]
  }

  function SearchConditions(search: string): seq<Condition> {
    if Strings.Fields(search) == [] then [] else [Matching(Strings.Fields(search))]
  }

  // The text and arguments of the clause for conditions, empty when there are none.
  function WhereOf(d: Dialect, cs: seq<Condition>): Query {
    Query(if cs == [] then "" else " WHERE " + Text(Blanked(Clause(PartsOf(d, cs)))), AllValues(PartsOf(d, cs)))
  }

  method AddScope(d: Dialect, scope: Scope) returns (conditions: seq<string>, args: seq<Datum>)
    ensures Built(Words(d), ScopeConditions(scope), conditions, args)
  {
    var w := Words(d);
    conditions, args := [], [];
    match scope {
      case PlatformScope =>
      case UserScope(uid) =>
        conditions, args := AddCondition(w, [], conditions, args, ByOrAboutUser(uid));
        assert [] + [ByOrAboutUser(uid)] == [ByOrAboutUser(uid)];
      case TenantScope(kind, name) =>
        conditions, args := AddCondition(w, [], conditions, args, InTenantType(kind));
        assert [] + [InTenantType(kind)] == [InTenantType(kind)];
        conditions, args := AddCondition(w, [InTenantType(kind)], conditions, args, InTenantName(name));
        assert [InTenantType(kind)] + [InTenantName(name)] == ScopeConditions(scope);
    }
  }

  method AddSearch(d: Dialect, ghost cs: seq<Condition>, conditions: seq<string>, args: seq<Datum>, search: string)
    returns (conditions': seq<string>, args': seq<Datum>)
    requires Built(Words(d), cs, conditions, args)
    ensures Built(Words(d), cs + SearchConditions(search), conditions', args')
  {
    conditions', args' := conditions, args;
    assert cs + [] == cs;
    if search != "" {
      var terms := Strings.Fields(search);
      if |terms| > 0 {
        conditions', args' := AddCondition(Words(d), cs, conditions, args, Matching(terms));
      }
    }
  }

  function Starting(t: int): Condition {
    From(t)
  }

  function Ending(t: int): Condition {
    Until(t)
  }

  function ByFilter(e: Expr): Condition {
    Filtered(e)
  }

  function Beyond(p: Position): Condition {
    Past(p)
  }

  function Decoded(r: Request, token: Option<Option<CursorToken>>): Option<Result<Position, CursorError>> {
    if token.None? then None else Some(DecodeCursor(token.value, r.queryHash, r.now))
  }

  // The scope and the time range.
  function Ranged(r: Request, scope: Scope, spec: Spec): Result<seq<Condition>, QueryError> {
    Then(Then(Ok(ScopeConditions(scope)), TimeBound(r.parseFlexible, r.now, spec.startTime, Starting, InvalidStartTime)),
         TimeBound(r.parseFlexible, r.now, spec.endTime, Ending, InvalidEndTime))
  }

  // The request's conditions in the order they are written, or the first of
  // its parts that is refused.
  function Requested(r: Request, scope: Scope, spec: Spec): Result<seq<Condition>, QueryError> {
    Then(Then(Then(Ranged(r, scope, spec), Ok(SearchConditions(spec.search))), FilterConditions(r.d, spec.filter, ByFilter)),
         CursorConditions(Decoded(r, spec.continueToken), Beyond))
  }

  method AddRange(r: Request, scope: Scope, spec: Spec) returns (result: Result<(seq<string>, seq<Datum>), QueryError>)
    ensures Step(Words(r.d), [], Ranged(r, scope, spec), result)
  {
    var w := Words(r.d);
    var conditions, args := AddScope(r.d, scope);
    ghost var cs := ScopeConditions(scope);
    var started := AddTime(w, cs, conditions, args, r.parseFlexible, r.now, spec.startTime, Starting, InvalidStartTime);
    if started.Err? {
      return Err(started.error);
    }
    cs := cs + TimeBound(r.parseFlexible, r.now, spec.startTime, Starting, InvalidStartTime).value;
    result := AddTime(w, cs, started.value.0, started.value.1, r.parseFlexible, r.now, spec.endTime, Ending, InvalidEndTime);
    if result.Ok? {
      cs := cs + TimeBound(r.parseFlexible, r.now, spec.endTime, Ending, InvalidEndTime).value;
      assert [] + cs == cs;
    }
  }

  // buildActivityQuery up to its ORDER BY.
  method BuildActivityQuery(r: Request, scope: Scope, spec: Spec) returns (query: Result<Query, QueryError>)
    ensures match Requested(r, scope, spec)
      case Err(e) => query == Err(e)
      case Ok(cs) => query == Ok(WhereOf(r.d, cs))
  {
    var w := Words(r.d);
    var ranged := AddRange(r, scope, spec);
    if ranged.Err? {
      return Err(ranged.error);
    }
    ghost var cs := Ranged(r, scope, spec).value;
    assert [] + cs == cs;
    var conditions, args := AddSearch(r.d, cs, ranged.value.0, ranged.value.1, spec.search);
    cs := cs + SearchConditions(spec.search);
    var filtered := AddFilter(w, cs, conditions, args, r.d, spec.filter, ByFilter);
    if filtered.Err? {
      return Err(filtered.error);
    }
    cs := cs + FilterConditions(r.d, spec.filter, ByFilter).value;
    var placed := AddCursor(w, cs, filtered.value.0, filtered.value.1, Decoded(r, spec.continueToken), Beyond);
    if placed.Err? {
      return Err(placed.error);
    }
    cs := cs + CursorConditions(Decoded(r, spec.continueToken), Beyond).value;
    query := Ok(Finish(r.d, cs, placed.value.0, placed.value.1));
  }

  function Finish(d: Dialect, ghost cs: seq<Condition>, conditions: seq<string>, args: seq<Datum>): (query: Query)
    requires Built(Words(d), cs, conditions, args)
    ensures query == WhereOf(d, cs)
  {
    TextsJoined(d, cs);
    ValuesCollected(d, cs);
    Query(if |conditions| > 0 then " WHERE " + Strings.Join(conditions, " AND ") else "", args)
  }
}
