/**
 The query of audit logs: its conditions in the order the builder adds them,
 how its positional parameters bind, and how its text reads.
 */
module AuditQueries {
  import opened Prelude
  import Strings
  import opened CelSyntax
  import opened SqlSyntax
  import opened SqlLexing
  import opened CelConverter
  import opened SqlConverter
  import opened FilterParsing
  import opened FilterMeaning
  import opened Activities
  import opened ParameterText
  import opened SqlPrinting
  import opened SqlRendering
  import opened ConditionLists
  import opened TextReading
  import opened FilterReading
  import W = WhereClause
  import opened ClauseBuilding
  import K = Keyset
  import V = FilterMeaning
  import Q = QueryBuilder
  import L = AuditLogs

  datatype Position = Position(timestamp: int, auditId: string)

  datatype Condition =
    | ByUser(uid: string)
    | InScopeType(kind: string)
    | InScopeName(name: string)
    | From(start: int)
    | Until(end: int)
    | Filtered(e: Expr)
    | Past(position: Position)

  // ---------------------------------------------------------------------
  // Conditions
  // ---------------------------------------------------------------------

  // The fixed conditions, with parameters numbered from k.
  function Tree(c: Condition, k: nat): (t: Sql)
    requires !c.Filtered?
    ensures IsCondition(t)
  {
    match c
    case ByUser(_) => W.ColumnIs(Eq, UserUID, Param(k))
    case InScopeType(_) => W.ColumnIs(Eq, ScopeType, Param(k))
    case InScopeName(_) => W.ColumnIs(Eq, ScopeName, Param(k))
    case From(_) => W.ColumnIs(Ge, Timestamp, Param(k))
    case Until(_) => W.ColumnIs(Lt, Timestamp, Param(k))
    case Past(_) => PastTree(k)
  }

  function PastTree(k: nat): (t: Sql)
    ensures IsCondition(t)
  {
    W.OrOf(W.OrOf(W.HourIs(Lt, k), W.AndOf(W.HourIs(Eq, k + 1), W.ColumnIs(Lt, Timestamp, Param(k + 2)))),
           W.AndOf(W.ColumnIs(Eq, Timestamp, Param(k + 3)), W.ColumnIs(Lt, AuditID, Param(k + 4))))
  }

  function Values(d: Dialect, c: Condition): seq<Datum> {
    match c
    case ByUser(uid) => [DStr(uid)]
    case InScopeType(kind) => [DStr(kind)]
    case InScopeName(name) => [DStr(name)]
    case From(start) => [DTime(start)]
    case Until(end) => [DTime(end)]
    case Filtered(e) => Data(FilterFragment(d, e, 1).args)
    case Past(p) => [DTime(p.timestamp), DTime(p.timestamp), DTime(p.timestamp), DTime(p.timestamp), DStr(p.auditId)]
  }

  function ConditionTokens(d: Dialect, c: Condition, k: nat): seq<Token> {
    if c.Filtered? then FilterFragment(d, c.e, k).tokens else Print(Tree(c, k))
  }

  function ConditionTree(d: Dialect, c: Condition, k: nat): Sql {
    if !c.Filtered? then Tree(c, k)
    else if Emit(d, c.e, k).Ok? && ReadTree(d, c.e, k).Some? then ReadTree(d, c.e, k).value
    else Num(0)
  }

  function Layout(d: Dialect): (Condition, nat) -> Part {
    (c: Condition, k: nat) => Part(ConditionTokens(d, c, k), ConditionTree(d, c, k), Values(d, c))
  }

  function PartsOf(d: Dialect, cs: seq<Condition>): seq<Part> {
    Lay(Layout(d), cs, 1)
  }

  // ---------------------------------------------------------------------
  // Parameters
  // ---------------------------------------------------------------------

  lemma PastParams(k: nat)
    ensures Params(PastTree(k)) == [k, k + 1, k + 2, k + 3, k + 4]
  {
    W.HourParams(Lt, k);
    W.HourParams(Eq, k + 1);
    W.ColumnParams(Lt, Timestamp, Param(k + 2));
    W.ColumnParams(Eq, Timestamp, Param(k + 3));
    W.ColumnParams(Lt, AuditID, Param(k + 4));
    W.FiveParams(W.HourIs(Lt, k), W.HourIs(Eq, k + 1), W.ColumnIs(Lt, Timestamp, Param(k + 2)),
                 W.ColumnIs(Eq, Timestamp, Param(k + 3)), W.ColumnIs(Lt, AuditID, Param(k + 4)), k);
  }

  lemma TreeParams(d: Dialect, c: Condition, k: nat)
    requires !c.Filtered?
    ensures Params(Tree(c, k)) == Numbers(k, |Values(d, c)|)
  {
    assert Params(Param(k)) == [k];
    match c
    case Past(_) => PastParams(k);
    case ByUser(_) => W.ColumnParams(Eq, UserUID, Param(k));
    case InScopeType(_) => W.ColumnParams(Eq, ScopeType, Param(k));
    case InScopeName(_) => W.ColumnParams(Eq, ScopeName, Param(k));
    case From(_) => W.ColumnParams(Ge, Timestamp, Param(k));
    case Until(_) => W.ColumnParams(Lt, Timestamp, Param(k));
  }

  lemma TokensNumbered(d: Dialect, c: Condition, k: nat)
    ensures Numbered(ConditionTokens(d, c, k), k, |Values(d, c)|)
  {
    if c.Filtered? {
      FilterOffset(d, c.e, 1, k);
      PlaceholdersInOrder(d, c.e, k);
      EmitSeparated(d, c.e, k);
    } else {
      PrintParams(Tree(c, k));
      PrintHasNoMark(Tree(c, k));
      TreeParams(d, c, k);
    }
  }

  lemma AllNumbered(d: Dialect, cs: seq<Condition>)
    ensures PartsNumbered(PartsOf(d, cs), 1)
  {
    forall i | 0 <= i < |cs| ensures NumbersItself(Layout(d), cs[i]) {
      forall k: nat ensures Numbered(Layout(d)(cs[i], k).tokens, k, |Layout(d)(cs[i], k).values|) {
        TokensNumbered(d, cs[i], k);
      }
    }
    LaidNumbered(Layout(d), cs, 1);
  }

  // The k-th ? is bound to the k-th argument, for every mix of scope, times,
  // filter and cursor.
  lemma ArgumentsBindInOrder(d: Dialect, cs: seq<Condition>)
    ensures var ps := PartsOf(d, cs);
            Bind(Blanked(Clause(ps)), 1) == Clause(ps) && Placeholders(Clause(ps)) == Numbers(1, |AllValues(ps)|)
  {
    AllNumbered(d, cs);
    PositionalBinding(PartsOf(d, cs));
  }

  // ---------------------------------------------------------------------
  // Reading
  // ---------------------------------------------------------------------

  lemma PastQuoteFree(k: nat)
    ensures QuoteFree(PastTree(k))
  {
    W.HourQuoteFree(Lt, k);
    W.HourQuoteFree(Eq, k + 1);
    W.ColumnQuoteFree(Lt, Timestamp, k + 2);
    W.ColumnQuoteFree(Eq, Timestamp, k + 3);
    W.ColumnQuoteFree(Lt, AuditID, k + 4);
    W.AllQuoteFree(W.HourIs(Lt, k), W.HourIs(Eq, k + 1), W.ColumnIs(Lt, Timestamp, Param(k + 2)),
                   W.ColumnIs(Eq, Timestamp, Param(k + 3)), W.ColumnIs(Lt, AuditID, Param(k + 4)));
  }

  lemma TreeQuoteFree(c: Condition, k: nat)
    requires !c.Filtered?
    ensures QuoteFree(Tree(c, k))
  {
    match c
    case ByUser(_) => W.ColumnQuoteFree(Eq, UserUID, k);
    case InScopeType(_) => W.ColumnQuoteFree(Eq, ScopeType, k);
    case InScopeName(_) => W.ColumnQuoteFree(Eq, ScopeName, k);
    case From(_) => W.ColumnQuoteFree(Ge, Timestamp, k);
    case Until(_) => W.ColumnQuoteFree(Lt, Timestamp, k);
    case Past(_) => PastQuoteFree(k);
  }

  lemma TokensSeparated(d: Dialect, c: Condition, k: nat)
    ensures Separated(ConditionTokens(d, c, k))
  {
    if c.Filtered? {
      EmitSeparated(d, c.e, k);
    } else {
      TreeQuoteFree(c, k);
      PrintSeparated(Tree(c, k));
    }
  }

  lemma FixedReadable(d: Dialect, c: Condition, k: nat)
    requires !c.Filtered?
    ensures Readable(Layout(d)(c, k))
  {
    forall rest | Ends(rest) ensures ParseNot(ConditionTokens(d, c, k) + rest) == Got(ConditionTree(d, c, k), rest) {
      ConditionParses(Tree(c, k), rest);
    }
  }

  // The query's text, lexed and bound, is the clause.
  lemma ClauseReadsBack(d: Dialect, cs: seq<Condition>)
    ensures ReadText(Text(Blanked(Clause(PartsOf(d, cs))))) == Parse(Clause(PartsOf(d, cs)))
  {
    var ps := PartsOf(d, cs);
    forall i | 0 <= i < |ps| ensures Separated(ps[i].tokens) {
      var k := LaidAt(Layout(d), cs, 1, i);
      TokensSeparated(d, cs[i], k);
    }
    ClauseSeparated(ps);
    AllNumbered(d, cs);
    ClauseNumbered(ps, 1);
    ReadsBack(Clause(ps), |AllValues(ps)|);
  }

  // ---------------------------------------------------------------------
  // What the clause selects
  // ---------------------------------------------------------------------

  ghost predicate HoldsText(row: Row, c: Column) {
    row(c).Some? && row(c).value.DStr?
  }

  // A row of the audit-log table.
  ghost predicate IsLog(row: Row) {
    && HoldsText(row, UserUID) && HoldsText(row, ScopeType) && HoldsText(row, ScopeName) && HoldsText(row, AuditID)
    && row(Timestamp).Some? && row(Timestamp).value.DTime?
  }

  // The row comes after the cursor's: in an earlier hour, earlier in its hour,
  // or at the same time under a smaller ID.
  ghost predicate IsPast(row: Row, p: Position)
    requires IsLog(row)
  {
    var t := row(Timestamp).value.t;
    || StartOfHour(t) < StartOfHour(p.timestamp)
    || (StartOfHour(t) == StartOfHour(p.timestamp) && t < p.timestamp)
    || (t == p.timestamp && Strings.StrLess(row(AuditID).value.s, p.auditId))
  }

  // The rows a fixed condition is meant to keep.
  ghost predicate Passes(c: Condition, row: Row)
    requires !c.Filtered? && IsLog(row)
  {
    match c
    case ByUser(uid) => row(UserUID) == Some(DStr(uid))
    case InScopeType(kind) => row(ScopeType) == Some(DStr(kind))
    case InScopeName(name) => row(ScopeName) == Some(DStr(name))
    case From(start) => row(Timestamp).value.t >= start
    case Until(end) => row(Timestamp).value.t < end
    case Past(p) => IsPast(row, p)
  }

  predicate AllAccepted(d: Dialect, cs: seq<Condition>) {
    forall i :: 0 <= i < |cs| ==> cs[i].Filtered? ==> Emit(d, cs[i].e, 1).Ok?
  }

  // What a condition answers on a row: a filter answers as it does alone.
  ghost function Verdict(d: Dialect, c: Condition, row: Row): Option<bool>
    requires IsLog(row) && (c.Filtered? ==> Emit(d, c.e, 1).Ok?)
  {
    if c.Filtered? then AnswerOn(d, c.e, row) else Some(Passes(c, row))
  }

  ghost function Verdicts(d: Dialect, cs: seq<Condition>, row: Row): seq<Option<bool>>
    requires IsLog(row) && AllAccepted(d, cs)
  {
    seq(|cs|, i requires 0 <= i < |cs| => Verdict(d, cs[i], row))
  }

  lemma ColumnMeans(row: Row, args: seq<Datum>, op: CompareOp, c: Column, k: nat, v: Datum)
    requires row(c).Some? && 1 <= k <= |args| && args[k - 1] == v
    ensures SqlEval(row, args, W.ColumnIs(op, c, Param(k))) == SqlCompare(op, row(c).value, v)
  {
  }

  lemma PastMeans(row: Row, args: seq<Datum>, k: nat, p: Position)
    requires IsLog(row)
    requires Window(args, k, [DTime(p.timestamp), DTime(p.timestamp), DTime(p.timestamp), DTime(p.timestamp), DStr(p.auditId)])
    ensures SqlEval(row, args, PastTree(k)) == Some(Truth(IsPast(row, p)))
  {
    var vs := [DTime(p.timestamp), DTime(p.timestamp), DTime(p.timestamp), DTime(p.timestamp), DStr(p.auditId)];
    WindowAt(args, k, vs, 0);
    WindowAt(args, k, vs, 1);
    WindowAt(args, k, vs, 2);
    WindowAt(args, k, vs, 3);
    WindowAt(args, k, vs, 4);
    var s, t, id := row(Timestamp).value.t, p.timestamp, row(AuditID).value.s;
    W.HoursMean(row, args, Lt, k, s, t);
    W.HoursMean(row, args, Eq, k + 1, s, t);
    ColumnMeans(row, args, Lt, Timestamp, k + 2, DTime(t));
    ColumnMeans(row, args, Eq, Timestamp, k + 3, DTime(t));
    ColumnMeans(row, args, Lt, AuditID, k + 4, DStr(p.auditId));
    W.FiveMean(row, args, W.HourIs(Lt, k), W.HourIs(Eq, k + 1), W.ColumnIs(Lt, Timestamp, Param(k + 2)),
               W.ColumnIs(Eq, Timestamp, Param(k + 3)), W.ColumnIs(Lt, AuditID, Param(k + 4)),
               StartOfHour(s) < StartOfHour(t), StartOfHour(s) == StartOfHour(t), s < t, s == t, Strings.StrLess(id, p.auditId));
  }

  lemma ConditionMeans(d: Dialect, c: Condition, row: Row, args: seq<Datum>, k: nat)
    requires !c.Filtered? && IsLog(row) && Window(args, k, Values(d, c))
    ensures SqlEval(row, args, Tree(c, k)) == Some(Truth(Passes(c, row)))
  {
    WindowAt(args, k, Values(d, c), 0);
    match c
    case ByUser(uid) => ColumnMeans(row, args, Eq, UserUID, k, DStr(uid));
    case InScopeType(kind) => ColumnMeans(row, args, Eq, ScopeType, k, DStr(kind));
    case InScopeName(name) => ColumnMeans(row, args, Eq, ScopeName, k, DStr(name));
    case From(start) => ColumnMeans(row, args, Ge, Timestamp, k, DTime(start));
    case Until(end) => ColumnMeans(row, args, Lt, Timestamp, k, DTime(end));
    case Past(p) => PastMeans(row, args, k, p);
  }

  lemma ConditionReads(d: Dialect, c: Condition, row: Row, args: seq<Datum>)
    requires IsLog(row) && (c.Filtered? ==> Emit(d, c.e, 1).Ok?)
    ensures MeansAs(Layout(d), row, args, c, Verdict(d, c, row))
  {
    forall k: nat | Window(args, k, Values(d, c)) ensures Judged(row, args, Layout(d)(c, k), Verdict(d, c, row)) {
      if c.Filtered? {
        FilterJudged(d, c.e, row, args, k, Layout(d)(c, k));
      } else {
        FixedReadable(d, c, k);
        ConditionMeans(d, c, row, args, k);
      }
    }
  }

  // The text with its arguments answers on a row what its conditions do
  // together, whatever filter was accepted.
  lemma ClauseAnswers(d: Dialect, cs: seq<Condition>, row: Row)
    requires IsLog(row) && AllAccepted(d, cs) && cs != []
    ensures var ps := PartsOf(d, cs);
            RowSelected(row, AllValues(ps), Text(Blanked(Clause(ps)))) == Every(Verdicts(d, cs, row))
  {
    var ps := PartsOf(d, cs);
    var args := AllValues(ps);
    forall i | 0 <= i < |cs| ensures MeansAs(Layout(d), row, args, cs[i], Verdicts(d, cs, row)[i]) {
      ConditionReads(d, cs[i], row, args);
    }
    LaidMeans(Layout(d), cs, 1, row, args, Verdicts(d, cs, row));
    ClauseReadsBack(d, cs);
    ClauseMeans(row, args, ps, Verdicts(d, cs, row));
  }

  // The rows a condition is meant to keep, given the event a row was made of.
  ghost predicate Keeps(d: Dialect, c: Condition, row: Row, env: map<string, V.Value>)
    requires IsLog(row)
  {
    if c.Filtered? then CelEval(d, env, c.e) == Some(V.VBool(true)) else Passes(c, row)
  }

  // The same for a row that agrees with the event on every field.
  lemma ClauseKeeps(d: Dialect, cs: seq<Condition>, row: Row, env: map<string, V.Value>)
    requires IsLog(row) && RowAgrees(d, env, row) && cs != []
    requires forall i :: 0 <= i < |cs| && cs[i].Filtered? ==>
               Emit(d, cs[i].e, 1).Ok? && Safe(d, cs[i].e) && TypeOf(d, cs[i].e) == Some(TBool)
    ensures var ps := PartsOf(d, cs);
            RowSelected(row, AllValues(ps), Text(Blanked(Clause(ps)))) == Some(forall i :: 0 <= i < |cs| ==> Keeps(d, cs[i], row, env))
  {
    ClauseAnswers(d, cs, row);
    forall i | 0 <= i < |cs| ensures Verdicts(d, cs, row)[i] == Some(Keeps(d, cs[i], row, env)) {
      if cs[i].Filtered? {
        AnswersAsMeant(d, cs[i].e, env, row);
      }
    }
    W.EveryDecides(Verdicts(d, cs, row));
  }

  // What a condition asks of an event.
  ghost predicate Asks(d: Dialect, c: Condition, log: L.AuditLog) {
    match c
    case ByUser(uid) => log.uid == uid
    case InScopeType(kind) => log.scopeType == kind
    case InScopeName(name) => log.scopeName == name
    case From(start) => start <= log.received
    case Until(end) => log.received < end
    case Filtered(e) => CelEval(d, L.LogToMap(log), e) == Some(V.VBool(true))
    case Past(Position(t, id)) =>
      || log.received - log.received % 3_600_000 < t - t % 3_600_000
      || (log.received - log.received % 3_600_000 == t - t % 3_600_000 && log.received < t)
      || (log.received == t && Strings.StrLess(log.auditId, id))
  }

  // With a filter that is typed and whose text keeps its meaning, the clause
  // selects the row of an event exactly if every condition holds of the event.
  lemma ClauseSelects(d: Dialect, cs: seq<Condition>, cols: L.Columns, log: L.AuditLog)
    requires d.domain == AuditDomain && L.Fits(cols, log) && cs != []
    requires forall i :: 0 <= i < |cs| && cs[i].Filtered? ==>
               Emit(d, cs[i].e, 1).Ok? && Safe(d, cs[i].e) && TypeOf(d, cs[i].e) == Some(TBool)
    ensures var ps := PartsOf(d, cs);
            RowSelected(L.LogRow(cols, log), AllValues(ps), Text(Blanked(Clause(ps)))) ==
            Some(forall i :: 0 <= i < |cs| ==> Asks(d, cs[i], log))
  {
    var row := L.LogRow(cols, log);
    L.LogRowAgreesIff(d, cols, log);
    ClauseKeeps(d, cs, row, L.LogToMap(log));
    forall i | 0 <= i < |cs| ensures Keeps(d, cs[i], row, L.LogToMap(log)) <==> Asks(d, cs[i], log) {
      KeepsAsked(d, cs[i], cols, log);
    }
  }

  lemma KeepsAsked(d: Dialect, c: Condition, cols: L.Columns, log: L.AuditLog)
    requires L.Fits(cols, log)
    ensures IsLog(L.LogRow(cols, log))
    ensures Keeps(d, c, L.LogRow(cols, log), L.LogToMap(log)) <==> Asks(d, c, log)
  {
  }

  // ---------------------------------------------------------------------
  // Texts
  // ---------------------------------------------------------------------

  // The fixed conditions as the builder writes them.
  function FixedText(c: Condition): string
    requires !c.Filtered?
  {
    match c
    case ByUser(_) => "user_uid = ?"
    case InScopeType(_) => "scope_type = ?"
    case InScopeName(_) => "scope_name = ?"
    case From(_) => "timestamp >= ?"
    case Until(_) => "timestamp < ?"
    case Past(_) =>
      "(" + (("toStartOfHour(timestamp) < toStartOfHour(?)" + " OR " +
              ("(" + ("toStartOfHour(timestamp) = toStartOfHour(?)" + " AND " + "timestamp < ?") + ")")) + " OR " +
             ("(" + ("timestamp = ?" + " AND " + "audit_id < ?") + ")")) + ")"
  }

  lemma AuditIDText(k: nat)
    ensures Render(W.ColumnIs(Lt, AuditID, Param(k))) == "audit_id < ?"
  {
    Q.ColumnText(Lt, AuditID, k, "audit_id < ?");
  }

  lemma PastText(k: nat)
    ensures Render(PastTree(k)) == FixedText(Past(Position(0, "")))
  {
    Q.EarlierHourText(k);
    Q.SameHourText(k + 1);
    Q.BeforeText(k + 2);
    Q.SameTimeText(k + 3);
    AuditIDText(k + 4);
    Q.ThreeWays(W.HourIs(Lt, k), W.HourIs(Eq, k + 1), W.ColumnIs(Lt, Timestamp, Param(k + 2)),
                W.ColumnIs(Eq, Timestamp, Param(k + 3)), W.ColumnIs(Lt, AuditID, Param(k + 4)),
                "toStartOfHour(timestamp) < toStartOfHour(?)", "toStartOfHour(timestamp) = toStartOfHour(?)",
                "timestamp < ?", "timestamp = ?", "audit_id < ?");
  }

  lemma UserText(k: nat)
    ensures Render(W.ColumnIs(Eq, UserUID, Param(k))) == "user_uid = ?"
  {
    Q.ColumnText(Eq, UserUID, k, "user_uid = ?");
  }

  lemma ScopeTypeText(k: nat)
    ensures Render(W.ColumnIs(Eq, ScopeType, Param(k))) == "scope_type = ?"
  {
    Q.ColumnText(Eq, ScopeType, k, "scope_type = ?");
  }

  lemma ScopeNameText(k: nat)
    ensures Render(W.ColumnIs(Eq, ScopeName, Param(k))) == "scope_name = ?"
  {
    Q.ColumnText(Eq, ScopeName, k, "scope_name = ?");
  }

  lemma FixedTextIs(c: Condition, k: nat)
    requires !c.Filtered?
    ensures Render(Tree(c, k)) == FixedText(c)
  {
    match c
    case ByUser(_) => UserText(k);
    case InScopeType(_) => ScopeTypeText(k);
    case InScopeName(_) => ScopeNameText(k);
    case From(_) => Q.FromText(k);
    case Until(_) => Q.BeforeText(k);
    case Past(_) => PastText(k);
  }

  function ConditionText(d: Dialect, c: Condition): string {
    if c.Filtered? then Spelled(FilterFragment(d, c.e, 1).tokens) else FixedText(c)
  }

  function Words(d: Dialect): Wording<Condition> {
    Wording((c: Condition) => ConditionText(d, c), (c: Condition) => Values(d, c))
  }

  // The builder's joined texts are the clause.
  lemma TextsJoined(d: Dialect, cs: seq<Condition>)
    ensures Strings.Join(Words(d).Texts(cs), " AND ") == Text(Blanked(Clause(PartsOf(d, cs))))
  {
    forall i | 0 <= i < |cs| ensures SpelledAs(Layout(d), cs[i], Words(d).Texts(cs)[i]) {
      forall k: nat ensures Text(Blanked(Layout(d)(cs[i], k).tokens)) == ConditionText(d, cs[i]) {
        if cs[i].Filtered? {
          FilterOffset(d, cs[i].e, 1, k);
        } else {
          FixedTextIs(cs[i], k);
          ConditionSpelled(Tree(cs[i], k));
        }
      }
    }
    LaidTexts(Layout(d), cs, 1, Words(d).Texts(cs));
    JoinedTexts(PartsOf(d, cs));
  }

  lemma ValuesCollected(d: Dialect, cs: seq<Condition>)
    ensures Flat(Words(d).Values(cs)) == AllValues(PartsOf(d, cs))
  {
    LaidValues(Layout(d), cs, 1, Words(d).Values(cs));
  }

  // ---------------------------------------------------------------------
  // The builder
  // ---------------------------------------------------------------------

  datatype Scope = PlatformScope | UserScope(uid: string) | TenantScope(kind: string, name: string)

  datatype ContinueToken = ContinueToken(position: Position, queryHash: string, issuedAt: Option<int>)

  // A continue token that is not valid base64 JSON is None.
  datatype Spec = Spec(startTime: string, endTime: string, filter: Option<Expr>, continueToken: Option<Option<ContinueToken>>)

  // The surroundings of one request: the RFC 3339 and flexible time parsers,
  // the clock and the hash of the query's parameters.
  datatype Request = Request(
    parseTime: string -> Option<int>,
    parseFlexible: (string, int) -> Option<int>,
    now: int,
    queryHash: string)
  {
    function Dialect(): Dialect {
      CelConverter.Dialect.Dialect(AuditDomain, parseTime)
    }
  }

  function ScopeConditions(scope: Scope): seq<Condition> {
    match scope
    case PlatformScope => []
    case UserScope(uid) => [ByUser(uid)]
    case TenantScope(kind, name) => [InScopeType(kind), InScopeName(name)]
  }

  function Starting(t: int): Condition {
    From(t)
  }

  function Ending(t: int): Condition {
    Until(t)
  }

  function ByFilter(e: Expr): Condition {
    Filtered(e)
  }

  function Beyond(p: Position): Condition {
    Past(p)
  }

  function DecodeCursor(token: Option<ContinueToken>, queryHash: string, now: int): Result<Position, K.CursorError> {
    if token.None? then Err(K.InvalidToken)
    else if token.value.queryHash != queryHash then Err(K.ParametersChanged)
    else if token.value.issuedAt.None? then Err(K.InvalidToken)
    else if now - token.value.issuedAt.value > K.CURSOR_TTL then Err(K.TokenExpired)
    else Ok(token.value.position)
  }

  function Decoded(r: Request, token: Option<Option<ContinueToken>>): Option<Result<Position, K.CursorError>> {
    if token.None? then None else Some(DecodeCursor(token.value, r.queryHash, r.now))
  }

  // The request's conditions in the order they are written, or the first of
  // its parts that is refused.
  function Requested(r: Request, scope: Scope, spec: Spec): Result<seq<Condition>, QueryError> {
    var bounds := Then(Then(Ok(ScopeConditions(scope)),
                            TimeBound(r.parseFlexible, r.now, spec.startTime, Starting, InvalidStartTime)),
                       TimeBound(r.parseFlexible, r.now, spec.endTime, Ending, InvalidEndTime));
    Then(Then(bounds, FilterConditions(r.Dialect(), spec.filter, ByFilter)),
         CursorConditions(Decoded(r, spec.continueToken), Beyond))
  }

  method AddScope(d: Dialect, scope: Scope) returns (conditions: seq<string>, args: seq<Datum>)
    ensures Built(Words(d), ScopeConditions(scope), conditions, args)
  {
    var w := Words(d);
    conditions, args := [], [];
    match scope {
      case PlatformScope =>
      case UserScope(uid) =>
        conditions, args := AddCondition(w, [], conditions, args, ByUser(uid));
        assert [] + [ByUser(uid)] == ScopeConditions(scope);
      case TenantScope(kind, name) =>
        conditions, args := AddCondition(w, [], conditions, args, InScopeType(kind));
        assert [] + [InScopeType(kind)] == [InScopeType(kind)];
        conditions, args := AddCondition(w, [InScopeType(kind)], conditions, args, InScopeName(name));
        assert [InScopeType(kind)] + [InScopeName(name)] == ScopeConditions(scope);
    }
  }

  // The text and arguments of the clause for conditions, empty when there are none.
  function WhereOf(d: Dialect, cs: seq<Condition>): Query {
    Query(if cs == [] then "" else " WHERE " + Text(Blanked(Clause(PartsOf(d, cs)))), AllValues(PartsOf(d, cs)))
  }

  // buildQuery up to its ORDER BY.
  method BuildQuery(r: Request, scope: Scope, spec: Spec) returns (query: Result<Query, QueryError>)
    ensures match Requested(r, scope, spec)
      case Err(e) => query == Err(e)
      case Ok(cs) => query == Ok(WhereOf(r.Dialect(), cs))
  {
    var w := Words(r.Dialect());
    var conditions, args := AddScope(r.Dialect(), scope);
    ghost var cs := ScopeConditions(scope);
    var started := AddTime(w, cs, conditions, args, r.parseFlexible, r.now, spec.startTime, Starting, InvalidStartTime);
    if started.Err? {
      return Err(started.error);
    }
    cs := cs + TimeBound(r.parseFlexible, r.now, spec.startTime, Starting, InvalidStartTime).value;
    var ended := AddTime(w, cs, started.value.0, started.value.1, r.parseFlexible, r.now, spec.endTime, Ending, InvalidEndTime);
    if ended.Err? {
      return Err(ended.error);
    }
    cs := cs + TimeBound(r.parseFlexible, r.now, spec.endTime, Ending, InvalidEndTime).value;
    var filtered := AddFilter(w, cs, ended.value.0, ended.value.1, r.Dialect(), spec.filter, ByFilter);
    if filtered.Err? {
      return Err(filtered.error);
    }
    cs := cs + FilterConditions(r.Dialect(), spec.filter, ByFilter).value;
    var placed := AddCursor(w, cs, filtered.value.0, filtered.value.1, Decoded(r, spec.continueToken), Beyond);
    if placed.Err? {
      return Err(placed.error);
    }
    cs := cs + CursorConditions(Decoded(r, spec.continueToken), Beyond).value;
    query := Ok(Finish(r.Dialect(), cs, placed.value.0, placed.value.1));
  }

  function Finish(d: Dialect, ghost cs: seq<Condition>, conditions: seq<string>, args: seq<Datum>): (query: Query)
    requires Built(Words(d), cs, conditions, args)
    ensures query == WhereOf(d, cs)
  {
    TextsJoined(d, cs);
    ValuesCollected(d, cs);
    Query(if |conditions| > 0 then " WHERE " + Strings.Join(conditions, " AND ") else "", args)
  }
}
