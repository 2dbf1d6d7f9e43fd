/**
 Comparisons of comparisons: the text drops their grouping, and the database
 groups them to the left. When a watch and a query still agree.
 */
module LostGrouping {
  import opened Prelude
  import opened CelSyntax
  import opened SqlSyntax
  import opened CelConverter
  import opened FilterParsing
  import opened FilterMeaning
  import opened ConditionLists
  import opened TextReading
  import opened Activities
  import opened FilterReading
  import opened FilterKinds

  predicate Equality(op: CompareOp) {
    op.Eq? || op.Ne?
  }

  // l op (m op' r), each operand with a text that keeps its own meaning.
  predicate Nested(d: Dialect, op: CompareOp, l: Expr, inner: Expr) {
    && inner.Compare? && Equality(op) && Equality(inner.op)
    && Safe(d, l) && !LeadsNot(d, l) && Safe(d, inner) && Closed(d, inner.left)
  }

  // Two equal texts, and what they are read as: (l op m) op' r.
  lemma NestedReads(d: Dialect, op: CompareOp, l: Expr, inner: Expr, n: nat)
    requires Nested(d, op, l, inner) && Emit(d, Compare(op, l, inner), n).Ok?
    ensures var k := After(d, l, n);
      && Emit(d, l, n).Ok? && Emit(d, inner, k).Ok? && Emit(d, inner.left, k).Ok? && Emit(d, inner.right, After(d, inner.left, k)).Ok?
      && ReadTree(d, Compare(op, l, inner), n) ==
           Some(Cmp(inner.op, Cmp(op, Intended(d, l, n), Intended(d, inner.left, k)), Intended(d, inner.right, After(d, inner.left, k))))
  {
    var e, k := Compare(op, l, inner), After(d, l, n);
    var m, r := inner.left, inner.right;
    InfixTokens(d, e, n);
    InfixTokens(d, inner, k);
    var s, t, u := ShapeOf(d, l, n), ShapeOf(d, m, k), ShapeOf(d, r, After(d, m, k));
    ShapeIsMeant(d, l, n);
    ShapeIsMeant(d, m, k);
    ShapeIsMeant(d, r, After(d, m, k));
    ShapeIsWell(d, m, k);
    ShapeIsWell(d, r, After(d, m, k));
    NegOfShape(d, l, n);
    assert Intended(d, m, k) == t.head && Intended(d, r, After(d, m, k)) == u.head;
    assert ShapeOf(d, inner, k) == Chained(t, CompareTok(inner.op), u);
    assert ShapeOf(d, e, n) == Chained(s, CompareTok(op), ShapeOf(d, inner, k));
    ChainOfThree(s, CompareTok(op), t, CompareTok(inner.op), u);
  }

  lemma ChainOfThree(s: Shape, op: Token, t: Shape, op': Token, u: Shape)
    requires s.Shape? && t.Shape? && u.Shape? && IsOperator(op) && IsOperator(op') && Operators(s.links)
    requires t.links == [] && u.links == [] && !t.neg && !u.neg && !s.neg
    ensures Whole(Chained(s, op, Chained(t, op', u))) == Some(Apply(op', Apply(op, Whole(s).value, t.head), u.head))
    ensures Whole(t) == Some(t.head) && Whole(u) == Some(u.head)
  {
    var links := s.links + [(op, t.head)] + [(op', u.head)];
    assert Chained(s, op, Chained(t, op', u)).links == s.links + [(op, t.head)] + ([] + [(op', u.head)] + []);
    assert s.links + [(op, t.head)] + ([] + [(op', u.head)] + []) == s.links + ([(op, t.head)] + [(op', u.head)]);
    FoldConcat(s.head, s.links, [(op, t.head)] + [(op', u.head)]);
    FoldConcat(Fold(s.head, s.links), [(op, t.head)], [(op', u.head)]);
    assert [(op, t.head)][1..] == [] && [(op', u.head)][1..] == [];
  }

  // For a typed filter of this form, the answers agree on every activity when
  // the inner operands are truth values, because equality of truth values is
  // associative; otherwise the query fails while the watch answers.
  lemma NestedAgreesIff(d: Dialect, op: CompareOp, l: Expr, inner: Expr, a: Activity)
    requires d.domain == ActivityDomain && Nested(d, op, l, inner) && Emit(d, Compare(op, l, inner), 1).Ok?
    requires TypeOf(d, Compare(op, l, inner)) == Some(TBool) && TypeOf(d, inner.left) != Some(TNum)
    ensures var e := Compare(op, l, inner);
      && !Safe(d, e) && EvaluateActivity(d, e, a).Some?
      && (QueryAnswer(d, e, a) == if TypeOf(d, inner.left) == Some(TBool) then EvaluateActivity(d, e, a) else None)
  {
    var u, v, w := NestedQuery(d, op, l, inner, a);
    WatchNested(d, op, l, inner, a, u, v, w);
  }

  // The operands' values for a watch.
  ghost predicate Operands(d: Dialect, l: Expr, inner: Expr, a: Activity, u: Value, v: Value, w: Value) {
    && inner.Compare? && CelEval(d, ActivityToMap(a), l) == Some(u)
    && CelEval(d, ActivityToMap(a), inner.left) == Some(v) && CelEval(d, ActivityToMap(a), inner.right) == Some(w)
  }

  lemma WatchNested(d: Dialect, op: CompareOp, l: Expr, inner: Expr, a: Activity, u: Value, v: Value, w: Value)
    requires Operands(d, l, inner, a, u, v, w) && Equality(op) && Equality(inner.op)
    ensures EvaluateActivity(d, Compare(op, l, inner), a) == Some(EqualityOf(op, u, VBool(EqualityOf(inner.op, v, w))))
  {
    var x := VBool(EqualityOf(inner.op, v, w));
    assert CelEval(d, ActivityToMap(a), inner) == CompareValues(inner.op, v, w) == Some(x);
    assert CelEval(d, ActivityToMap(a), Compare(op, l, inner)) == CompareValues(op, u, x);
  }

  lemma NestedQuery(d: Dialect, op: CompareOp, l: Expr, inner: Expr, a: Activity) returns (u: Value, v: Value, w: Value)
    requires d.domain == ActivityDomain && Nested(d, op, l, inner) && Emit(d, Compare(op, l, inner), 1).Ok?
    requires TypeOf(d, Compare(op, l, inner)) == Some(TBool) && TypeOf(d, inner.left) != Some(TNum)
    ensures Operands(d, l, inner, a, u, v, w)
    ensures QueryAnswer(d, Compare(op, l, inner), a) ==
            if TypeOf(d, inner.left) == Some(TBool) then Some(EqualityOf(op, u, VBool(EqualityOf(inner.op, v, w)))) else None
  {
    var e, k := Compare(op, l, inner), After(d, l, 1);
    var m, r := inner.left, inner.right;
    var args := Data(Emit(d, e, 1).value.args);
    NestedReads(d, op, l, inner, 1);
    ReadsAs(d, e, RowOf(a));
    NestedValues(d, op, l, inner, a, args);
    u, v, w := CelEval(d, ActivityToMap(a), l).value, CelEval(d, ActivityToMap(a), m).value, CelEval(d, ActivityToMap(a), r).value;
    NestedAnswer(RowOf(a), args, op, inner.op, Intended(d, l, 1), Intended(d, m, k), Intended(d, r, After(d, m, k)),
                 u, v, w, TypeOf(d, m).value);
  }

  // Each operand has one value on both sides.
  lemma NestedValues(d: Dialect, op: CompareOp, l: Expr, inner: Expr, a: Activity, args: seq<Datum>)
    requires d.domain == ActivityDomain && inner.Compare? && Emit(d, Compare(op, l, inner), 1).Ok?
    requires TypeOf(d, Compare(op, l, inner)) == Some(TBool) && args == Data(Emit(d, Compare(op, l, inner), 1).value.args)
    ensures var k := After(d, l, 1); var env := ActivityToMap(a); var t := TypeOf(d, inner.left);
      && t.Some? && Emit(d, l, 1).Ok? && Emit(d, inner.left, k).Ok? && Emit(d, inner.right, After(d, inner.left, k)).Ok?
      && SameValue(CelEval(d, env, l), SqlEval(RowOf(a), args, Intended(d, l, 1)), TBool)
      && SameValue(CelEval(d, env, inner.left), SqlEval(RowOf(a), args, Intended(d, inner.left, k)), t.value)
      && SameValue(CelEval(d, env, inner.right), SqlEval(RowOf(a), args, Intended(d, inner.right, After(d, inner.left, k))), t.value)
  {
    var e, k, env := Compare(op, l, inner), After(d, l, 1), ActivityToMap(a);
    RowAgreesWithMap(d, a);
    PairReady(d, env, RowOf(a), e, l, inner, 1, args);
    PairReady(d, env, RowOf(a), inner, inner.left, inner.right, k, args);
    KeepsValue(d, env, RowOf(a), l, 1, args);
    KeepsValue(d, env, RowOf(a), inner.left, k, args);
    KeepsValue(d, env, RowOf(a), inner.right, After(d, inner.left, k), args);
  }

  function EqualityOf(op: CompareOp, v: Value, w: Value): bool {
    if op.Eq? then v == w else v != w
  }

  lemma NestedAnswer(row: Row, args: seq<Datum>, op: CompareOp, op': CompareOp, x: Sql, y: Sql, z: Sql,
                     u: Value, v: Value, w: Value, t: Ty)
    requires Equality(op) && Equality(op') && HasType(u, TBool) && HasType(v, t) && HasType(w, t) && t != TNum
    requires SqlEval(row, args, x) == Some(DatumOf(u)) && SqlEval(row, args, y) == Some(DatumOf(v))
    requires SqlEval(row, args, z) == Some(DatumOf(w))
    ensures AsBool(SqlEval(row, args, Cmp(op', Cmp(op, x, y), z))) ==
            if t == TBool then Some(EqualityOf(op, u, VBool(EqualityOf(op', v, w)))) else None
  {
    assert SqlEval(row, args, Cmp(op, x, y)) == SqlCompare(op, DatumOf(u), DatumOf(v));
    if t == TBool {
      assert SqlCompare(op, DatumOf(u), DatumOf(v)) == Some(Truth(EqualityOf(op, u, v)));
      assert SqlCompare(op', Truth(EqualityOf(op, u, v)), DatumOf(w)) == Some(Truth(EqualityOf(op', VBool(EqualityOf(op, u, v)), w)));
    }
  }

  function SourceIs(c: Constant): Expr {
    Compare(Eq, Field(Ident("spec"), "changeSource"), Const(c))
  }

  // `true == (spec.changeSource == s)`, for any text s: a watch answers, and the
  // query compares the truth value of the first comparison with s and fails.
  lemma GroupingFailsQuery(d: Dialect, a: Activity, s: string)
    requires d.domain == ActivityDomain
    ensures var e := Compare(Eq, Const(BoolConst(true)), SourceIs(StringConst(s)));
      && ValidateFieldAccess(d.domain, e) && Emit(d, e, 1).Ok? && TypeOf(d, e) == Some(TBool) && !Safe(d, e)
      && EvaluateActivity(d, e, a) == Some(a.changeSource == s) && QueryAnswer(d, e, a) == None
  {
    SourceFilter(d, s);
    NestedAgreesIff(d, Eq, Const(BoolConst(true)), SourceIs(StringConst(s)), a);
    SourceWatch(d, a, s);
  }

  lemma SourceWatch(d: Dialect, a: Activity, s: string)
    ensures EvaluateActivity(d, Compare(Eq, Const(BoolConst(true)), SourceIs(StringConst(s))), a) == Some(a.changeSource == s)
  {
    SpecFieldValue(d, a, "changeSource");
    WatchNested(d, Eq, Const(BoolConst(true)), SourceIs(StringConst(s)), a, VBool(true), VStr(a.changeSource), VStr(s));
  }

  lemma SourceFilter(d: Dialect, s: string)
    requires d.domain == ActivityDomain
    ensures var yes, inner := Const(BoolConst(true)), SourceIs(StringConst(s));
      && ValidateFieldAccess(d.domain, Compare(Eq, yes, inner)) && Emit(d, Compare(Eq, yes, inner), 1).Ok?
      && Nested(d, Eq, yes, inner) && TypeOf(d, inner.left) == Some(TStr) && TypeOf(d, Compare(Eq, yes, inner)) == Some(TBool)
  {
    var field, lit, yes := Field(Ident("spec"), "changeSource"), Const(StringConst(s)), Const(BoolConst(true));
    assert Emit(d, yes, 1) == Ok(Fragment([Number(1)], []));
    assert Emit(d, field, 1) == Ok(Fragment([ColumnTok(ChangeSource)], []));
    assert Emit(d, lit, 1) == Ok(Fragment([Placeholder(1)], [ArgString(s)]));
    assert TypeOf(d, field) == Some(TStr) && TypeOf(d, lit) == Some(TStr) && TypeOf(d, yes) == Some(TBool);
    assert TypeOf(d, SourceIs(StringConst(s))) == Some(TBool);
  }

  // `spec.summary == (spec.changeSource == true)` is false for every watch, since
  // a text never equals a truth value. The query selects the rows whose summary
  // is the change source.
  lemma GroupingSelectsOthers(d: Dialect, a: Activity)
    requires d.domain == ActivityDomain
    ensures var e := Compare(Eq, Field(Ident("spec"), "summary"), SourceIs(BoolConst(true)));
      && ValidateFieldAccess(d.domain, e) && Emit(d, e, 1).Ok?
      && EvaluateActivity(d, e, a) == Some(false) && QueryAnswer(d, e, a) == Some(a.summary == a.changeSource)
  {
    var inner := SourceIs(BoolConst(true));
    var e := Compare(Eq, Field(Ident("spec"), "summary"), inner);
    OthersEmit(d);
    OthersAccepted(d);
    NestedReads(d, Eq, Field(Ident("spec"), "summary"), inner, 1);
    ReadsAs(d, e, RowOf(a));
    OthersWatch(d, a);
    OthersSelected(a, Data(Emit(d, e, 1).value.args));
  }

  lemma OthersEmit(d: Dialect)
    requires d.domain == ActivityDomain
    ensures var field, inner := Field(Ident("spec"), "summary"), SourceIs(BoolConst(true));
      && Emit(d, Compare(Eq, field, inner), 1).Ok? && After(d, field, 1) == 1 && After(d, inner.left, 1) == 1
      && Intended(d, field, 1) == Col(Summary) && Intended(d, inner.left, 1) == Col(ChangeSource) && Intended(d, inner.right, 1) == Num(1)
  {
    var field, other, yes := Field(Ident("spec"), "summary"), Field(Ident("spec"), "changeSource"), Const(BoolConst(true));
    assert Emit(d, field, 1) == Ok(Fragment([ColumnTok(Summary)], []));
    assert Emit(d, other, 1) == Ok(Fragment([ColumnTok(ChangeSource)], []));
    assert Emit(d, yes, 1) == Ok(Fragment([Number(1)], []));
  }

  lemma OthersAccepted(d: Dialect)
    requires d.domain == ActivityDomain
    ensures var field, inner := Field(Ident("spec"), "summary"), SourceIs(BoolConst(true));
      ValidateFieldAccess(d.domain, Compare(Eq, field, inner)) && Nested(d, Eq, field, inner)
  {
  }

  lemma OthersWatch(d: Dialect, a: Activity)
    ensures EvaluateActivity(d, Compare(Eq, Field(Ident("spec"), "summary"),
                                        SourceIs(BoolConst(true))), a) == Some(false)
  {
    SpecFieldValue(d, a, "summary");
    SpecFieldValue(d, a, "changeSource");
    WatchNested(d, Eq, Field(Ident("spec"), "summary"), SourceIs(BoolConst(true)), a, VStr(a.summary), VStr(a.changeSource), VBool(true));
  }

  lemma OthersSelected(a: Activity, args: seq<Datum>)
    ensures AsBool(SqlEval(RowOf(a), args, Cmp(Eq, Cmp(Eq, Col(Summary), Col(ChangeSource)), Num(1)))) == Some(a.summary == a.changeSource)
  {
    ComparedColumns(a, args);
  }
}
