/**
 The WHERE clause of an activity query: its conditions as SQL, their
 positional parameters, and what the whole clause selects.
 */
module WhereClause {
  import opened Prelude
  import Strings
  import opened CelSyntax
  import opened SqlSyntax
  import opened SqlLexing
  import opened CelConverter
  import opened FilterParsing
  import opened FilterMeaning
  import opened Activities
  import opened Keyset
  import opened SqlPrinting
  import opened ConditionLists
  import opened TextReading
  import opened FilterReading
  import opened ParameterText

  datatype Condition =
    | ByOrAboutUser(uid: string)
    | InTenantType(kind: string)
    | InTenantName(name: string)
    | From(start: int)
    | Until(end: int)
    | Matching(terms: seq<string>)
    | Filtered(e: Expr)
    | Past(position: Position)

  // ---------------------------------------------------------------------
  // Conditions as SQL
  // ---------------------------------------------------------------------

  function AndOf(l: Sql, r: Sql): (t: Sql)
    requires IsCondition(l) && IsCondition(r)
    ensures IsCondition(t)
  {
    Conj(l, r)
  }

  function OrOf(l: Sql, r: Sql): (t: Sql)
    requires IsCondition(l) && IsCondition(r)
    ensures IsCondition(t)
  {
    Disj(l, r)
  }

  function ColumnIs(op: CompareOp, c: Column, x: Sql): (t: Sql)
    requires IsTerm(x)
    ensures IsCondition(t)
  {
    Cmp(op, Col(c), x)
  }

  function HourIs(op: CompareOp, k: nat): (t: Sql)
    ensures IsCondition(t)
  {
    assert IsTerm(Col(Timestamp)) && IsTerm(Param(k));
    Cmp(op, Func(FnHour, [Col(Timestamp)]), Func(FnHour, [Param(k)]))
  }

  function SummaryHasAny(k: nat): (t: Sql)
    ensures IsCondition(t)
  {
    assert IsTerm(Col(Summary)) && IsTerm(Param(k));
    Cmp(Gt, Func(FnSearch, [Col(Summary), Param(k)]), Num(0))
  }

  // A platform event about the user's own account.
  function AboutUser(k: nat): (t: Sql)
    ensures IsCondition(t)
  {
    AndOf(AndOf(AndOf(ColumnIs(Eq, OriginType, Lit("event")), ColumnIs(Eq, ApiGroup, Lit("iam.miloapis.com"))),
                ColumnIs(Eq, ResourceKind, Lit("User"))),
          ColumnIs(Eq, ResourceName, Param(k)))
  }

  // The fixed conditions, with parameters numbered from k.
  function Tree(c: Condition, k: nat): (t: Sql)
    requires !c.Filtered?
    ensures IsCondition(t)
  {
    match c
    case ByOrAboutUser(_) =>
      OrOf(ColumnIs(Eq, ActorUID, Param(k)), AboutUser(k + 1))
    case InTenantType(_) => ColumnIs(Eq, TenantType, Param(k))
    case InTenantName(_) => ColumnIs(Eq, TenantName, Param(k))
    case From(_) => ColumnIs(Ge, Timestamp, Param(k))
    case Until(_) => ColumnIs(Lt, Timestamp, Param(k))
    case Matching(_) => SummaryHasAny(k)
    case Past(_) =>
      OrOf(OrOf(HourIs(Lt, k), AndOf(HourIs(Eq, k + 1), ColumnIs(Lt, Timestamp, Param(k + 2)))),
           AndOf(ColumnIs(Eq, Timestamp, Param(k + 3)), ColumnIs(Lt, ActivityName, Param(k + 4))))
  }

  function Values(d: Dialect, c: Condition): seq<Datum> {
    match c
    case ByOrAboutUser(uid) => [DStr(uid), DStr(uid)]
    case InTenantType(kind) => [DStr(kind)]
    case InTenantName(name) => [DStr(name)]
    case From(start) => [DTime(start)]
    case Until(end) => [DTime(end)]
    case Matching(terms) => [DList(StringData(terms))]
    case Filtered(e) => Data(FilterFragment(d, e, 1).args)
    case Past(p) => [DTime(p.timestamp), DTime(p.timestamp), DTime(p.timestamp), DTime(p.timestamp), DStr(p.name)]
  }

  // A condition's tokens, with parameters numbered from k.
  function ConditionTokens(d: Dialect, c: Condition, k: nat): seq<Token> {
    if c.Filtered? then FilterFragment(d, c.e, k).tokens else Print(Tree(c, k))
  }

  // ---------------------------------------------------------------------
  // Every condition numbers its own parameters
  // ---------------------------------------------------------------------

  function CountOf(c: Condition): nat
    requires !c.Filtered?
  {
    match c
    case ByOrAboutUser(_) => 2
    case Past(_) => 5
    case _ => 1
  }

  lemma TreeNumbered(c: Condition, k: nat)
    requires !c.Filtered?
    ensures Numbered(Print(Tree(c, k)), k, CountOf(c))
  {
    PrintParams(Tree(c, k));
    PrintHasNoMark(Tree(c, k));
    TreeParams(c, k);
  }

  lemma TreeParams(c: Condition, k: nat)
    requires !c.Filtered?
    ensures Params(Tree(c, k)) == Numbers(k, CountOf(c))
  {
    assert Params(Param(k)) == [k] && Params(Param(k + 1)) == [k + 1];
    match c
    case Past(_) => PastParams(k);
    case ByOrAboutUser(_) => UserParams(k);
    case Matching(_) => assert Params(Func(FnSearch, [Col(Summary), Param(k)])) == [] + [k];
    case InTenantType(_) => ColumnParams(Eq, TenantType, Param(k));
    case InTenantName(_) => ColumnParams(Eq, TenantName, Param(k));
    case From(_) => ColumnParams(Ge, Timestamp, Param(k));
    case Until(_) => ColumnParams(Lt, Timestamp, Param(k));
  }

  lemma ColumnParams(op: CompareOp, c: Column, x: Sql)
    requires IsTerm(x)
    ensures Params(ColumnIs(op, c, x)) == Params(x)
  {
  }

  lemma UserParams(k: nat)
    ensures Params(Tree(ByOrAboutUser(""), k)) == [k, k + 1]
  {
    var event, group := ColumnIs(Eq, OriginType, Lit("event")), ColumnIs(Eq, ApiGroup, Lit("iam.miloapis.com"));
    ColumnParams(Eq, OriginType, Lit("event"));
    ColumnParams(Eq, ApiGroup, Lit("iam.miloapis.com"));
    assert Params(AndOf(event, group)) == [];
    ColumnParams(Eq, ResourceKind, Lit("User"));
    assert Params(AndOf(AndOf(event, group), ColumnIs(Eq, ResourceKind, Lit("User")))) == [];
    ColumnParams(Eq, ResourceName, Param(k + 1));
    assert Params(AboutUser(k + 1)) == [k + 1];
    ColumnParams(Eq, ActorUID, Param(k));
  }

  lemma PastParams(k: nat)
    ensures Params(Tree(Past(Position(0, "")), k)) == [k, k + 1, k + 2, k + 3, k + 4]
  {
    HourParams(Lt, k);
    HourParams(Eq, k + 1);
    ColumnParams(Lt, Timestamp, Param(k + 2));
    ColumnParams(Eq, Timestamp, Param(k + 3));
    ColumnParams(Lt, ActivityName, Param(k + 4));
    FiveParams(HourIs(Lt, k), HourIs(Eq, k + 1), ColumnIs(Lt, Timestamp, Param(k + 2)),
               ColumnIs(Eq, Timestamp, Param(k + 3)), ColumnIs(Lt, ActivityName, Param(k + 4)), k);
  }

  lemma FiveParams(v: Sql, w: Sql, x: Sql, y: Sql, z: Sql, k: nat)
    requires Params(v) == [k] && Params(w) == [k + 1] && Params(x) == [k + 2] && Params(y) == [k + 3] && Params(z) == [k + 4]
    ensures Params(Disj(Disj(v, Conj(w, x)), Conj(y, z))) == [k, k + 1, k + 2, k + 3, k + 4]
  {
    assert Params(Conj(w, x)) == [k + 1, k + 2];
    assert Params(Disj(v, Conj(w, x))) == [k, k + 1, k + 2];
    assert Params(Conj(y, z)) == [k + 3, k + 4];
  }

  lemma HourParams(op: CompareOp, k: nat)
    ensures Params(HourIs(op, k)) == [k]
  {
    assert Params(Func(FnHour, [Param(k)])) == Params(Param(k)) == [k];
  }

  lemma WrittenNumbered(d: Dialect, c: Condition, k: nat)
    ensures Numbered(ConditionTokens(d, c, k), k, |Values(d, c)|)
  {
    if c.Filtered? {
      FilterOffset(d, c.e, 1, k);
      PlaceholdersInOrder(d, c.e, k);
      if Emit(d, c.e, k).Ok? {
        EmitIsPlain(d, c.e, k);
      }
    } else {
      TreeNumbered(c, k);
    }
  }

  // ---------------------------------------------------------------------
  // What each condition selects
  // ---------------------------------------------------------------------

  // The rows a condition is meant to keep.
  predicate Passes(d: Dialect, c: Condition, a: Activity) {
    match c
    case ByOrAboutUser(uid) =>
      a.actor.uid == uid || IsAboutUser(a, uid)
    case InTenantType(kind) => a.tenantType == kind
    case InTenantName(name) => a.tenantName == name
    case From(start) => a.timestamp >= start
    case Until(end) => a.timestamp < end
    case Matching(terms) =>
      exists i :: 0 <= i < |terms| && Strings.Contains(Strings.Lower(a.summary), Strings.Lower(terms[i]))
    case Filtered(e) => EvaluateActivity(d, e, a) == Some(true)
    case Past(p) => PastCursor(p, a)
  }

  // Filters that the converter accepts.
  predicate Accepted(d: Dialect, c: Condition) {
    c.Filtered? ==> Emit(d, c.e, 1).Ok?
  }

  // Filters whose text keeps their meaning and that cannot fail on a row.
  predicate Meaningful(d: Dialect, c: Condition) {
    c.Filtered? ==> Emit(d, c.e, 1).Ok? && Safe(d, c.e) && TypeOf(d, c.e) == Some(TBool)
  }

  // A condition's meaning, with parameters numbered from k.
  function ConditionTree(d: Dialect, c: Condition, k: nat): Sql {
    if !c.Filtered? then Tree(c, k)
    else if Emit(d, c.e, k).Ok? && ReadTree(d, c.e, k).Some? then ReadTree(d, c.e, k).value
    else Num(0)
  }

  lemma EvalOne(row: Row, args: seq<Datum>, x: Sql)
    requires SqlEval(row, args, x).Some?
    ensures SqlEvalAll(row, args, [x]) == Some([SqlEval(row, args, x).value])
  {
    var v := SqlEval(row, args, x).value;
    assert SqlEvalAll(row, args, []) == Some([]) && [v] + [] == [v];
    assert [x] + [] == [x];
  }

  lemma HourMeans(a: Activity, args: seq<Datum>, op: CompareOp, k: nat, t: int)
    requires 1 <= k <= |args| && args[k - 1] == DTime(t)
    ensures SqlEval(RowOf(a), args, HourIs(op, k)) ==
            Some(Truth(Decide(op, StartOfHour(a.timestamp) == StartOfHour(t), StartOfHour(a.timestamp) < StartOfHour(t))))
  {
    HoursMean(RowOf(a), args, op, k, a.timestamp, t);
  }

  lemma HoursMean(row: Row, args: seq<Datum>, op: CompareOp, k: nat, s: int, t: int)
    requires SqlEval(row, args, Col(Timestamp)) == Some(DTime(s)) && SqlEval(row, args, Param(k)) == Some(DTime(t))
    ensures SqlEval(row, args, HourIs(op, k)) ==
            Some(Truth(Decide(op, StartOfHour(s) == StartOfHour(t), StartOfHour(s) < StartOfHour(t))))
  {
    HourOf(row, args, Col(Timestamp), s);
    HourOf(row, args, Param(k), t);
  }

  lemma HourOf(row: Row, args: seq<Datum>, x: Sql, t: int)
    requires SqlEval(row, args, x) == Some(DTime(t))
    ensures SqlEval(row, args, Func(FnHour, [x])) == Some(DTime(StartOfHour(t)))
  {
    EvalOne(row, args, x);
  }

  lemma TimeMeans(a: Activity, args: seq<Datum>, op: CompareOp, k: nat, t: int)
    requires 1 <= k <= |args| && args[k - 1] == DTime(t)
    ensures SqlEval(RowOf(a), args, ColumnIs(op, Timestamp, Param(k))) ==
            Some(Truth(Decide(op, a.timestamp == t, a.timestamp < t)))
  {
  }

  lemma TextMeans(a: Activity, args: seq<Datum>, op: CompareOp, c: Column, v: string, x: Sql, s: string)
    requires IsTerm(x) && ColumnOf(a, c) == Some(DStr(v)) && SqlEval(RowOf(a), args, x) == Some(DStr(s))
    ensures SqlEval(RowOf(a), args, ColumnIs(op, c, x)) == Some(Truth(Decide(op, v == s, Strings.StrLess(v, s))))
  {
  }

  lemma PastMeans(a: Activity, args: seq<Datum>, k: nat, p: Position)
    requires Window(args, k, [DTime(p.timestamp), DTime(p.timestamp), DTime(p.timestamp), DTime(p.timestamp), DStr(p.name)])
    ensures SqlEval(RowOf(a), args, Tree(Past(p), k)) == Some(Truth(PastCursor(p, a)))
  {
    var vs := [DTime(p.timestamp), DTime(p.timestamp), DTime(p.timestamp), DTime(p.timestamp), DStr(p.name)];
    WindowAt(args, k, vs, 0);
    WindowAt(args, k, vs, 1);
    WindowAt(args, k, vs, 2);
    WindowAt(args, k, vs, 3);
    WindowAt(args, k, vs, 4);
    var row, t := RowOf(a), p.timestamp;
    var h, u := StartOfHour(a.timestamp), StartOfHour(t);
    HourMeans(a, args, Lt, k, t);
    HourMeans(a, args, Eq, k + 1, t);
    TimeMeans(a, args, Lt, k + 2, t);
    TimeMeans(a, args, Eq, k + 3, t);
    TextMeans(a, args, Lt, ActivityName, a.name, Param(k + 4), p.name);
    FiveMean(row, args, HourIs(Lt, k), HourIs(Eq, k + 1), ColumnIs(Lt, Timestamp, Param(k + 2)),
             ColumnIs(Eq, Timestamp, Param(k + 3)), ColumnIs(Lt, ActivityName, Param(k + 4)),
             h < u, h == u, a.timestamp < t, a.timestamp == t, Strings.StrLess(a.name, p.name));
  }

  lemma FiveMean(row: Row, args: seq<Datum>, v: Sql, w: Sql, x: Sql, y: Sql, z: Sql, a: bool, b: bool, c: bool, e: bool,
                 f: bool)
    requires IsCondition(v) && IsCondition(w) && IsCondition(x) && IsCondition(y) && IsCondition(z)
    requires SqlEval(row, args, v) == Some(Truth(a)) && SqlEval(row, args, w) == Some(Truth(b))
    requires SqlEval(row, args, x) == Some(Truth(c)) && SqlEval(row, args, y) == Some(Truth(e))
    requires SqlEval(row, args, z) == Some(Truth(f))
    ensures SqlEval(row, args, OrOf(OrOf(v, AndOf(w, x)), AndOf(y, z))) == Some(Truth(a || (b && c) || (e && f)))
  {
    JunctionAgrees(row, args, w, x, b, c);
    JunctionAgrees(row, args, y, z, e, f);
    JunctionAgrees(row, args, v, AndOf(w, x), a, b && c);
    JunctionAgrees(row, args, OrOf(v, AndOf(w, x)), AndOf(y, z), a || (b && c), e && f);
  }

  lemma UserMeans(d: Dialect, a: Activity, args: seq<Datum>, k: nat, uid: string)
    requires Window(args, k, [DStr(uid), DStr(uid)])
    ensures SqlEval(RowOf(a), args, Tree(ByOrAboutUser(uid), k)) == Some(Truth(Passes(d, ByOrAboutUser(uid), a)))
  {
    WindowAt(args, k, [DStr(uid), DStr(uid)], 0);
    WindowAt(args, k, [DStr(uid), DStr(uid)], 1);
    TextMeans(a, args, Eq, ActorUID, a.actor.uid, Param(k), uid);
    AboutUserMeans(a, args, k + 1, uid);
    JunctionAgrees(RowOf(a), args, ColumnIs(Eq, ActorUID, Param(k)), AboutUser(k + 1), a.actor.uid == uid,
                   IsAboutUser(a, uid));
  }

  predicate IsAboutUser(a: Activity, uid: string) {
    a.originType == "event" && a.resource.apiGroup == "iam.miloapis.com" && a.resource.kind == "User" && a.resource.name == uid
  }

  lemma AboutUserMeans(a: Activity, args: seq<Datum>, k: nat, uid: string)
    requires 1 <= k <= |args| && args[k - 1] == DStr(uid)
    ensures SqlEval(RowOf(a), args, AboutUser(k)) == Some(Truth(IsAboutUser(a, uid)))
  {
    OriginMeans(a, args, k, uid, "event", "iam.miloapis.com", "User");
  }

  lemma OriginMeans(a: Activity, args: seq<Datum>, k: nat, uid: string, origin: string, group: string, kind: string)
    requires 1 <= k <= |args| && args[k - 1] == DStr(uid)
    ensures SqlEval(RowOf(a), args,
                    AndOf(AndOf(AndOf(ColumnIs(Eq, OriginType, Lit(origin)), ColumnIs(Eq, ApiGroup, Lit(group))),
                                ColumnIs(Eq, ResourceKind, Lit(kind))),
                          ColumnIs(Eq, ResourceName, Param(k)))) ==
            Some(Truth(a.originType == origin && a.resource.apiGroup == group && a.resource.kind == kind &&
                       a.resource.name == uid))
  {
    LiteralMeans(a, args, OriginType, a.originType, origin);
    LiteralMeans(a, args, ApiGroup, a.resource.apiGroup, group);
    LiteralMeans(a, args, ResourceKind, a.resource.kind, kind);
    NameMeans(a, args, k, uid);
    AllFourMean(RowOf(a), args, ColumnIs(Eq, OriginType, Lit(origin)), ColumnIs(Eq, ApiGroup, Lit(group)),
                ColumnIs(Eq, ResourceKind, Lit(kind)), ColumnIs(Eq, ResourceName, Param(k)),
                a.originType == origin, a.resource.apiGroup == group, a.resource.kind == kind, a.resource.name == uid);
  }

  lemma NameMeans(a: Activity, args: seq<Datum>, k: nat, uid: string)
    requires 1 <= k <= |args| && args[k - 1] == DStr(uid)
    ensures SqlEval(RowOf(a), args, ColumnIs(Eq, ResourceName, Param(k))) == Some(Truth(a.resource.name == uid))
  {
    TextMeans(a, args, Eq, ResourceName, a.resource.name, Param(k), uid);
  }

  lemma LiteralMeans(a: Activity, args: seq<Datum>, c: Column, v: string, s: string)
    requires ColumnOf(a, c) == Some(DStr(v))
    ensures SqlEval(RowOf(a), args, ColumnIs(Eq, c, Lit(s))) == Some(Truth(v == s))
  {
    TextMeans(a, args, Eq, c, v, Lit(s), s);
  }

  lemma AllFourMean(row: Row, args: seq<Datum>, w: Sql, x: Sql, y: Sql, z: Sql, a: bool, b: bool, c: bool, e: bool)
    requires IsCondition(w) && IsCondition(x) && IsCondition(y) && IsCondition(z)
    requires SqlEval(row, args, w) == Some(Truth(a)) && SqlEval(row, args, x) == Some(Truth(b))
    requires SqlEval(row, args, y) == Some(Truth(c)) && SqlEval(row, args, z) == Some(Truth(e))
    ensures SqlEval(row, args, AndOf(AndOf(AndOf(w, x), y), z)) == Some(Truth(a && b && c && e))
  {
    JunctionAgrees(row, args, w, x, a, b);
    JunctionAgrees(row, args, AndOf(w, x), y, a && b, c);
    JunctionAgrees(row, args, AndOf(AndOf(w, x), y), z, a && b && c, e);
  }

  lemma MatchingMeans(d: Dialect, a: Activity, args: seq<Datum>, k: nat, terms: seq<string>)
    requires Window(args, k, [DList(StringData(terms))])
    ensures SqlEval(RowOf(a), args, Tree(Matching(terms), k)) == Some(Truth(Passes(d, Matching(terms), a)))
  {
    WindowAt(args, k, [DList(StringData(terms))], 0);
    var row := RowOf(a);
    EvalTwo(row, args, Col(Summary), Param(k));
    var has := AnyTermIn(a.summary, StringData(terms));
    assert SqlEval(row, args, Func(FnSearch, [Col(Summary), Param(k)])) == Some(Truth(has));
    assert has <==> Passes(d, Matching(terms), a) by {
      if has {
        var i :| 0 <= i < |StringData(terms)| && Strings.Contains(Strings.Lower(a.summary), Strings.Lower(StringData(terms)[i].s));
        assert StringData(terms)[i].s == terms[i];
      }
      if Passes(d, Matching(terms), a) {
        var i :| 0 <= i < |terms| && Strings.Contains(Strings.Lower(a.summary), Strings.Lower(terms[i]));
        assert StringData(terms)[i] == DStr(terms[i]);
      }
    }
  }

  lemma ConditionMeans(d: Dialect, c: Condition, a: Activity, args: seq<Datum>, k: nat)
    requires !c.Filtered? && Window(args, k, Values(d, c))
    ensures SqlEval(RowOf(a), args, Tree(c, k)) == Some(Truth(Passes(d, c, a)))
  {
    WindowAt(args, k, Values(d, c), 0);
    match c
    case ByOrAboutUser(uid) => UserMeans(d, a, args, k, uid);
    case InTenantType(kind) => TextMeans(a, args, Eq, TenantType, a.tenantType, Param(k), kind);
    case InTenantName(name) => TextMeans(a, args, Eq, TenantName, a.tenantName, Param(k), name);
    case From(start) => TimeMeans(a, args, Ge, k, start);
    case Until(end) => TimeMeans(a, args, Lt, k, end);
    case Matching(terms) => MatchingMeans(d, a, args, k, terms);
    case Past(p) => PastMeans(a, args, k, p);
  }

  // ---------------------------------------------------------------------
  // The whole clause
  // ---------------------------------------------------------------------

  function PartOf(d: Dialect, c: Condition, k: nat): Part {
    Part(ConditionTokens(d, c, k), ConditionTree(d, c, k), Values(d, c))
  }

  function Layout(d: Dialect): (Condition, nat) -> Part {
    (c: Condition, k: nat) => PartOf(d, c, k)
  }

  // The conditions numbered one after the other from 1.
  function PartsOf(d: Dialect, cs: seq<Condition>): seq<Part> {
    Lay(Layout(d), cs, 1)
  }

  lemma ConditionNumbered(d: Dialect, c: Condition)
    ensures NumbersItself(Layout(d), c)
  {
    forall k: nat ensures Numbered(Layout(d)(c, k).tokens, k, |Layout(d)(c, k).values|) {
      WrittenNumbered(d, c, k);
    }
  }

  // The driver's k-th ? is the builder's k-th argument, for every mix of
  // scope, times, search, filter and cursor.
  lemma ArgumentsBindInOrder(d: Dialect, cs: seq<Condition>)
    ensures var ps := PartsOf(d, cs);
            Bind(Blanked(Clause(ps)), 1) == Clause(ps) && Placeholders(Clause(ps)) == Numbers(1, |AllValues(ps)|)
  {
    forall i | 0 <= i < |cs| ensures NumbersItself(Layout(d), cs[i]) {
      ConditionNumbered(d, cs[i]);
    }
    LaidNumbered(Layout(d), cs, 1);
    PositionalBinding(PartsOf(d, cs));
  }

  predicate AllMeaningful(d: Dialect, cs: seq<Condition>) {
    forall i :: 0 <= i < |cs| ==> Meaningful(d, cs[i])
  }

  predicate AllAccepted(d: Dialect, cs: seq<Condition>) {
    forall i :: 0 <= i < |cs| ==> Accepted(d, cs[i])
  }

  // What a condition answers on an activity: a filter answers as it does alone.
  function Verdict(d: Dialect, c: Condition, a: Activity): Option<bool>
    requires Accepted(d, c)
  {
    if c.Filtered? then QueryAnswer(d, c.e, a) else Some(Passes(d, c, a))
  }

  function Verdicts(d: Dialect, cs: seq<Condition>, a: Activity): seq<Option<bool>>
    requires AllAccepted(d, cs)
  {
    seq(|cs|, i requires 0 <= i < |cs| => Verdict(d, cs[i], a))
  }

  lemma ConditionReads(d: Dialect, c: Condition, a: Activity, args: seq<Datum>)
    requires Accepted(d, c)
    ensures MeansAs(Layout(d), RowOf(a), args, c, Verdict(d, c, a))
  {
    forall k: nat | Window(args, k, Values(d, c)) ensures Judged(RowOf(a), args, Layout(d)(c, k), Verdict(d, c, a)) {
      if c.Filtered? {
        FilterJudged(d, c.e, RowOf(a), args, k, PartOf(d, c, k));
      } else {
        FixedReadable(d, c, k);
        ConditionMeans(d, c, a, args, k);
      }
    }
  }

  lemma FixedReadable(d: Dialect, c: Condition, k: nat)
    requires !c.Filtered?
    ensures Readable(PartOf(d, c, k))
  {
    forall rest | Ends(rest) ensures ParseNot(ConditionTokens(d, c, k) + rest) == Got(ConditionTree(d, c, k), rest) {
      ConditionParses(Tree(c, k), rest);
    }
  }

  lemma ColumnQuoteFree(op: CompareOp, c: Column, k: nat)
    ensures QuoteFree(ColumnIs(op, c, Param(k)))
  {
    assert QuoteFree(Col(c)) && QuoteFree(Param(k));
  }

  lemma LiteralQuoteFree(c: Column, s: string)
    requires forall i :: 0 <= i < |s| ==> s[i] != '\''
    ensures QuoteFree(ColumnIs(Eq, c, Lit(s)))
  {
    assert QuoteFree(Col(c)) && QuoteFree(Lit(s));
  }

  lemma HourQuoteFree(op: CompareOp, k: nat)
    ensures QuoteFree(HourIs(op, k))
  {
    assert QuoteFree(Func(FnHour, [Col(Timestamp)])) && QuoteFree(Func(FnHour, [Param(k)]));
  }

  lemma AboutUserQuoteFree(k: nat)
    ensures QuoteFree(AboutUser(k))
  {
    LiteralQuoteFree(OriginType, "event");
    LiteralQuoteFree(ApiGroup, "iam.miloapis.com");
    LiteralQuoteFree(ResourceKind, "User");
    ColumnQuoteFree(Eq, ResourceName, k);
    var w, x := ColumnIs(Eq, OriginType, Lit("event")), ColumnIs(Eq, ApiGroup, Lit("iam.miloapis.com"));
    assert QuoteFree(AndOf(w, x)) && QuoteFree(AndOf(AndOf(w, x), ColumnIs(Eq, ResourceKind, Lit("User"))));
  }

  lemma PastQuoteFree(k: nat)
    ensures QuoteFree(Tree(Past(Position(0, "")), k))
  {
    HourQuoteFree(Lt, k);
    HourQuoteFree(Eq, k + 1);
    ColumnQuoteFree(Lt, Timestamp, k + 2);
    ColumnQuoteFree(Eq, Timestamp, k + 3);
    ColumnQuoteFree(Lt, ActivityName, k + 4);
    AllQuoteFree(HourIs(Lt, k), HourIs(Eq, k + 1), ColumnIs(Lt, Timestamp, Param(k + 2)), ColumnIs(Eq, Timestamp, Param(k + 3)),
                 ColumnIs(Lt, ActivityName, Param(k + 4)));
  }

  lemma AllQuoteFree(v: Sql, w: Sql, x: Sql, y: Sql, z: Sql)
    requires QuoteFree(v) && QuoteFree(w) && QuoteFree(x) && QuoteFree(y) && QuoteFree(z)
    ensures QuoteFree(Disj(Disj(v, Conj(w, x)), Conj(y, z)))
  {
    assert QuoteFree(Conj(w, x)) && QuoteFree(Conj(y, z)) && QuoteFree(Disj(v, Conj(w, x)));
  }

  // The fixed conditions have no quote inside a literal.
  lemma TreeQuoteFree(c: Condition, k: nat)
    requires !c.Filtered?
    ensures QuoteFree(Tree(c, k))
  {
    match c
    case ByOrAboutUser(_) =>
      ColumnQuoteFree(Eq, ActorUID, k);
      AboutUserQuoteFree(k + 1);
    case InTenantType(_) => ColumnQuoteFree(Eq, TenantType, k);
    case InTenantName(_) => ColumnQuoteFree(Eq, TenantName, k);
    case From(_) => ColumnQuoteFree(Ge, Timestamp, k);
    case Until(_) => ColumnQuoteFree(Lt, Timestamp, k);
    case Matching(_) =>
      assert QuoteFree(Func(FnSearch, [Col(Summary), Param(k)]));
    case Past(_) => PastQuoteFree(k);
  }

  lemma TokensSeparated(d: Dialect, c: Condition, k: nat)
    ensures Separated(ConditionTokens(d, c, k))
  {
    if c.Filtered? {
      EmitSeparated(d, c.e, k);
    } else {
      TreeQuoteFree(c, k);
      PrintSeparated(Tree(c, k));
    }
  }

  // The clause's text, lexed and bound, is the clause.
  lemma ClauseReadsBack(d: Dialect, cs: seq<Condition>)
    ensures ReadText(Text(Blanked(Clause(PartsOf(d, cs))))) == Parse(Clause(PartsOf(d, cs)))
  {
    var ps := PartsOf(d, cs);
    forall i | 0 <= i < |ps| ensures Separated(ps[i].tokens) {
      var k := LaidAt(Layout(d), cs, 1, i);
      TokensSeparated(d, cs[i], k);
    }
    ClauseSeparated(ps);
    forall i | 0 <= i < |cs| ensures NumbersItself(Layout(d), cs[i]) {
      ConditionNumbered(d, cs[i]);
    }
    LaidNumbered(Layout(d), cs, 1);
    ClauseNumbered(ps, 1);
    ReadsBack(Clause(ps), |AllValues(ps)|);
  }

  predicate AllPass(d: Dialect, cs: seq<Condition>, a: Activity) {
    forall i :: 0 <= i < |cs| ==> Passes(d, cs[i], a)
  }

  // The text sent to ClickHouse, with its arguments bound in order, answers on
  // a row what its conditions do together, whatever filter was accepted: each
  // fixed condition as it is meant, and the filter as it does alone.
  lemma ClauseAnswers(d: Dialect, cs: seq<Condition>, a: Activity)
    requires AllAccepted(d, cs) && cs != []
    ensures var ps := PartsOf(d, cs);
            RowSelected(RowOf(a), AllValues(ps), Text(Blanked(Clause(ps)))) == Every(Verdicts(d, cs, a))
  {
    var ps := PartsOf(d, cs);
    var args := AllValues(ps);
    ArgumentsBindInOrder(d, cs);
    forall i | 0 <= i < |cs| ensures MeansAs(Layout(d), RowOf(a), args, cs[i], Verdicts(d, cs, a)[i]) {
      ConditionReads(d, cs[i], a, args);
    }
    LaidMeans(Layout(d), cs, 1, RowOf(a), args, Verdicts(d, cs, a));
    ClauseReadsBack(d, cs);
    ClauseMeans(RowOf(a), args, ps, Verdicts(d, cs, a));
  }

  lemma {:induction false} EveryDecides(bs: seq<Option<bool>>)
    requires forall i :: 0 <= i < |bs| ==> bs[i].Some?
    ensures Every(bs) == Some(forall i :: 0 <= i < |bs| ==> bs[i].value)
  {
    if bs != [] {
      EveryDecides(bs[1..]);
      assert forall i :: 0 <= i < |bs| ==> bs[i] == if i == 0 then bs[0] else bs[1..][i - 1];
    }
  }

  // With a filter whose text keeps its meaning, it selects exactly the rows that
  // every condition is meant to keep.
  lemma ClauseSelects(d: Dialect, cs: seq<Condition>, a: Activity)
    requires d.domain == ActivityDomain && AllMeaningful(d, cs) && cs != []
    ensures var ps := PartsOf(d, cs);
            RowSelected(RowOf(a), AllValues(ps), Text(Blanked(Clause(ps)))) == Some(AllPass(d, cs, a))
  {
    ClauseAnswers(d, cs, a);
    forall i | 0 <= i < |cs| ensures Verdicts(d, cs, a)[i] == Some(Passes(d, cs[i], a)) {
      VerdictPasses(d, cs[i], a);
    }
    EveryDecides(Verdicts(d, cs, a));
  }

  lemma VerdictPasses(d: Dialect, c: Condition, a: Activity)
    requires d.domain == ActivityDomain && Meaningful(d, c)
    ensures Verdict(d, c, a) == Some(Passes(d, c, a))
  {
    if c.Filtered? {
      WatchAgreesWithQuery(d, c.e, a);
    }
  }

  function Selected(d: Dialect, cs: seq<Condition>, table: set<Activity>): set<Activity> {
    set a | a in table && AllPass(d, cs, a)
  }

  // The next page's query selects what the first page's did, past the cursor.
  lemma CursorNarrows(d: Dialect, cs: seq<Condition>, p: Position, table: set<Activity>)
    ensures Selected(d, cs + [Past(p)], table) == Remaining(Selected(d, cs, table), Some(p))
  {
    forall a ensures a in Selected(d, cs + [Past(p)], table) <==> a in Remaining(Selected(d, cs, table), Some(p)) {
      var all := cs + [Past(p)];
      assert forall i :: 0 <= i < |cs| ==> all[i] == cs[i];
      assert all[|cs|] == Past(p);
    }
  }
}
