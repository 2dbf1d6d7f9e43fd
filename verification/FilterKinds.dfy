/**
 Filters that the checker accepts although they are not typed whatever the row
 holds: when their SQL has a value at all, and how far a watch and a query then
 differ.
 */
module FilterKinds {
  import opened Prelude
  import opened CelSyntax
  import opened SqlSyntax
  import opened CelConverter
  import opened FilterParsing
  import opened FilterMeaning
  import opened ConditionLists
  import opened TextReading
  import opened Activities
  import opened FilterReading

  datatype Kind = KStr | KNum | KTime | KList

  function KindOf(x: Datum): Kind {
    match x
    case DStr(_) => KStr
    case DNum(_) => KNum
    case DTime(_) => KTime
    case DList(_) => KList
  }

  function KindIn(x: Option<Datum>): Option<Kind> {
    if x.Some? then Some(KindOf(x.value)) else None
  }

  // What the activities table holds in a column.
  function ColumnKind(c: Column): Option<Kind> {
    match c
    case Timestamp => Some(KTime)
    case RelatedUIDList => Some(KList)
    case AuditID => None
    case Verb => None
    case Namespace => None
    case ResourceType => None
    case Username => None
    case UserUID => None
    case StatusCode => None
    case ScopeType => None
    case ScopeName => None
    case _ => Some(KStr)
  }

  function NumIf(c: bool): Option<Kind> {
    if c then Some(KNum) else None
  }

  predicate Scalar(k: Option<Kind>) {
    k.Some? && k.value != KList
  }

  function CallKind(fn: Fn, ks: seq<Kind>): Option<Kind> {
    match fn
    case FnHas => NumIf(ks == [KList, KStr])
    case FnStartsWith => NumIf(ks == [KStr, KStr])
    case FnEndsWith => NumIf(ks == [KStr, KStr])
    case FnPosition => NumIf(ks == [KStr, KStr])
    case FnHour => if ks == [KTime] then Some(KTime) else None
    case FnSearch => NumIf(ks == [KStr, KList])
  }

  // The kind of a condition's value, read off the condition and its arguments.
  function TreeKind(args: seq<Datum>, t: Sql): Option<Kind>
    decreases t, 0
  {
    match t
    case Col(c) => ColumnKind(c)
    case Param(n) => if 1 <= n <= |args| then Some(KindOf(args[n - 1])) else None
    case Num(_) => Some(KNum)
    case Lit(_) => Some(KStr)
    case Func(fn, ts) =>
      (match TreeKinds(args, ts)
       case Some(ks) => CallKind(fn, ks)
       case None => None)
    case ListOf(ts) => if TreeKinds(args, ts).Some? then Some(KList) else None
    case Cmp(_, l, r) => NumIf(TreeKind(args, l) == TreeKind(args, r) && Scalar(TreeKind(args, l)))
    case Within(l, r) => NumIf(r.ListOf? && Scalar(TreeKind(args, l)) && ElementKinds(args, r.items, TreeKind(args, l).value))
    case Conj(l, r) => NumIf(TreeKind(args, l) == Some(KNum) && TreeKind(args, r) == Some(KNum))
    case Disj(l, r) => NumIf(TreeKind(args, l) == Some(KNum) && TreeKind(args, r) == Some(KNum))
    case Neg(x) => NumIf(TreeKind(args, x) == Some(KNum))
  }

  // Every element of a list is of kind k.
  predicate ElementKinds(args: seq<Datum>, ts: seq<Sql>, k: Kind)
    decreases ts, 1
  {
    ts == [] || (TreeKind(args, ts[0]) == Some(k) && ElementKinds(args, ts[1..], k))
  }

  function TreeKinds(args: seq<Datum>, ts: seq<Sql>): Option<seq<Kind>>
    decreases ts, 1
  {
    if ts == [] then Some([])
    else match (TreeKind(args, ts[0]), TreeKinds(args, ts[1..]))
      case (Some(k), Some(ks)) => Some([k] + ks)
      case _ => None
  }

  function KindsIn(xs: Option<seq<Datum>>): Option<seq<Kind>> {
    if xs.Some? then Some(seq(|xs.value|, i requires 0 <= i < |xs.value| => KindOf(xs.value[i]))) else None
  }

  lemma CallHasKind(fn: Fn, ds: seq<Datum>)
    ensures KindIn(SqlCall(fn, ds)) == CallKind(fn, KindsIn(Some(ds)).value)
  {
    var ks := KindsIn(Some(ds)).value;
    if |ds| == 1 {
      assert ks == [KindOf(ds[0])];
    } else if |ds| == 2 {
      assert ks == [KindOf(ds[0]), KindOf(ds[1])];
    }
  }

  lemma KindsCons(x: Datum, xs: seq<Datum>)
    ensures KindsIn(Some([x] + xs)) == Some([KindOf(x)] + KindsIn(Some(xs)).value)
  {
    assert KindsIn(Some([x] + xs)).value == [KindOf(x)] + KindsIn(Some(xs)).value;
  }

  // Every condition has a value of its kind on every row, or on none.
  lemma {:induction false} KindDecides(a: Activity, args: seq<Datum>, t: Sql)
    ensures KindIn(SqlEval(RowOf(a), args, t)) == TreeKind(args, t)
    decreases t, 0
  {
    match t
    case Func(fn, ts) =>
      KindsDecide(a, args, ts);
      if SqlEvalAll(RowOf(a), args, ts).Some? {
        CallHasKind(fn, SqlEvalAll(RowOf(a), args, ts).value);
      }
    case ListOf(ts) => KindsDecide(a, args, ts);
    case Cmp(_, l, r) =>
      KindDecides(a, args, l);
      KindDecides(a, args, r);
    case Within(l, r) =>
      KindDecides(a, args, l);
      if r.ListOf? && SqlEval(RowOf(a), args, l).Some? {
        var x := SqlEval(RowOf(a), args, l).value;
        ElementsDecide(a, args, r.items, KindOf(x));
      }
    case Conj(l, r) =>
      KindDecides(a, args, l);
      KindDecides(a, args, r);
    case Disj(l, r) =>
      KindDecides(a, args, l);
      KindDecides(a, args, r);
    case Neg(x) => KindDecides(a, args, x);
    case _ =>
  }

  ghost predicate AllOfKind(xs: Option<seq<Datum>>, k: Kind) {
    xs.Some? && forall i :: 0 <= i < |xs.value| ==> KindOf(xs.value[i]) == k
  }

  lemma {:induction false} ElementsDecide(a: Activity, args: seq<Datum>, ts: seq<Sql>, k: Kind)
    ensures AllOfKind(SqlEvalAll(RowOf(a), args, ts), k) <==> ElementKinds(args, ts, k)
    decreases ts, 1
  {
    if ts != [] {
      KindDecides(a, args, ts[0]);
      ElementsDecide(a, args, ts[1..], k);
      var x, xs := SqlEval(RowOf(a), args, ts[0]), SqlEvalAll(RowOf(a), args, ts[1..]);
      if x.Some? && xs.Some? {
        var all := [x.value] + xs.value;
        assert all[0] == x.value && all[1..] == xs.value;
        assert AllOfKind(Some(all), k) <==> KindOf(x.value) == k && AllOfKind(xs, k) by {
          assert forall i :: 0 <= i < |xs.value| ==> all[i + 1] == xs.value[i];
        }
      }
    }
  }

  lemma {:induction false} KindsDecide(a: Activity, args: seq<Datum>, ts: seq<Sql>)
    ensures KindsIn(SqlEvalAll(RowOf(a), args, ts)) == TreeKinds(args, ts)
    decreases ts, 1
  {
    if ts == [] {
      assert KindsIn(Some([])) == Some([]) by {
        assert KindsIn(Some([])).value == [];
      }
    } else {
      KindDecides(a, args, ts[0]);
      KindsDecide(a, args, ts[1..]);
      var x, xs := SqlEval(RowOf(a), args, ts[0]), SqlEvalAll(RowOf(a), args, ts[1..]);
      if x.Some? && xs.Some? {
        KindsCons(x.value, xs.value);
      }
    }
  }

  // The query for the filter runs: its text reads as a truth value.
  predicate Runs(d: Dialect, e: Expr)
    requires Emit(d, e, 1).Ok?
  {
    ReadTree(d, e, 1).Some? && TreeKind(Data(Emit(d, e, 1).value.args), ReadTree(d, e, 1).value) == Some(KNum)
  }

  // A query answers on every row or fails on every row, as its text and
  // arguments decide.
  lemma AnswersIffRuns(d: Dialect, e: Expr, a: Activity)
    requires Emit(d, e, 1).Ok?
    ensures QueryAnswer(d, e, a).Some? <==> Runs(d, e)
  {
    ReadsAs(d, e, RowOf(a));
    if ReadTree(d, e, 1).Some? {
      KindDecides(a, Data(Emit(d, e, 1).value.args), ReadTree(d, e, 1).value);
    }
  }

  // ---------------------------------------------------------------------
  // Exactly when the two agree
  // ---------------------------------------------------------------------

  // A field or one on the way to it is only tested for.
  predicate Tests(e: Expr) {
    e.Select? && !Reads(e)
  }

  predicate Mixed(t: Option<Ty>, u: Option<Ty>) {
    (t == Some(TBool) && u == Some(TNum)) || (t == Some(TNum) && u == Some(TBool))
  }

  // No truth value stands where a number is expected, nor a number where a truth
  // value is, and tests stand where truth values do.
  predicate Unmixed(d: Dialect, e: Expr)
    decreases e, 0
  {
    match e
    case Not(a) => Unmixed(d, a) && TypeOf(d, a) != Some(TNum)
    case Compare(_, l, r) => Unmixed(d, l) && Unmixed(d, r) && !Tests(l) && !Tests(r) && !Mixed(TypeOf(d, l), TypeOf(d, r))
    case And(l, r) => Unmixed(d, l) && Unmixed(d, r) && TypeOf(d, l) != Some(TNum) && TypeOf(d, r) != Some(TNum)
    case Or(l, r) => Unmixed(d, l) && Unmixed(d, r) && TypeOf(d, l) != Some(TNum) && TypeOf(d, r) != Some(TNum)
    case In(l, r) =>
      Unmixed(d, l) && !Tests(l) &&
      if ArrayColumn(d.domain, r).Some? then Reads(r) else r.ListExpr? ==> AllUnmixed(d, r.elements, TypeOf(d, l))
    case Method(name, target, a) => name != "timestamp" && Unmixed(d, target) && Unmixed(d, a) && !Tests(target) && !Tests(a)
    case _ => true
  }

  predicate AllUnmixed(d: Dialect, es: seq<Expr>, t: Option<Ty>)
    decreases es, 1
  {
    es == [] || (Unmixed(d, es[0]) && !Tests(es[0]) && !Mixed(t, TypeOf(d, es[0])) && AllUnmixed(d, es[1..], t))
  }

  function KindFor(t: Ty): Kind {
    match t
    case TStr => KStr
    case TNum => KNum
    case TTime => KTime
    case TBool => KNum
  }

  // The kind in SQL of an expression of a type, or of none: then it is no value,
  // a list, or the field of a test.
  predicate Fits(e: Expr, t: Option<Ty>, k: Option<Kind>) {
    match t
    case Some(u) => k == Some(KindFor(u))
    case None => k == None || k == Some(KList) || (Tests(e) && k == Some(KStr))
  }

  ghost predicate Emitted(d: Dialect, e: Expr, n: nat, args: seq<Datum>) {
    d.domain == ActivityDomain && Emit(d, e, n).Ok? && Bound(args, n, Emit(d, e, n).value.args)
  }

  lemma TypedFits(d: Dialect, e: Expr, n: nat, args: seq<Datum>, a: Activity)
    requires Emitted(d, e, n, args) && TypeOf(d, e).Some?
    ensures TreeKind(args, Intended(d, e, n)) == Some(KindFor(TypeOf(d, e).value))
  {
    RowAgreesWithMap(d, a);
    KeepsValue(d, ActivityToMap(a), RowOf(a), e, n, args);
    KindDecides(a, args, Intended(d, e, n));
  }

  lemma {:induction false} KindFits(d: Dialect, e: Expr, n: nat, args: seq<Datum>, a: Activity)
    requires Emitted(d, e, n, args) && Unmixed(d, e)
    ensures Fits(e, TypeOf(d, e), TreeKind(args, Intended(d, e, n)))
    decreases e, 3
  {
    if TypeOf(d, e).Some? {
      TypedFits(d, e, n, args, a);
    } else {
      match e
      case Not(_) => NotFits(d, e, n, args, a);
      case Compare(_, _, _) => CompareFits(d, e, n, args, a);
      case And(_, _) => JunctionFits(d, e, n, args, a);
      case Or(_, _) => JunctionFits(d, e, n, args, a);
      case In(_, r) =>
        if ArrayColumn(d.domain, r).Some? {
          HasFits(d, e, n, args, a);
        } else {
          ListFits(d, e, n, args, a);
        }
      case Method(_, _, _) => MethodFits(d, e, n, args, a);
      case _ => LeafFits(d, e, n, args);
    }
  }

  lemma LeafFits(d: Dialect, e: Expr, n: nat, args: seq<Datum>)
    requires Emitted(d, e, n, args) && TypeOf(d, e).None?
    requires (TemplateOf(d, e).Leaf? && !e.Method?) || e.ListExpr?
    ensures Fits(e, None, TreeKind(args, Intended(d, e, n)))
  {
  }

  lemma {:induction false} NotFits(d: Dialect, e: Expr, n: nat, args: seq<Datum>, a: Activity)
    requires Emitted(d, e, n, args) && Unmixed(d, e) && TypeOf(d, e).None? && e.Not?
    ensures TreeKind(args, Intended(d, e, n)).None?
    decreases e, 2
  {
    KindFits(d, e.arg, n, args, a);
    NoNot(args, Intended(d, e.arg, n), e.arg, TypeOf(d, e.arg));
  }

  lemma NoNot(args: seq<Datum>, x: Sql, e: Expr, t: Option<Ty>)
    requires Fits(e, t, TreeKind(args, x)) && t != Some(TNum) && t != Some(TBool)
    ensures TreeKind(args, x) != Some(KNum) && TreeKind(args, Neg(x)).None?
  {
  }

  lemma {:induction false} CompareFits(d: Dialect, e: Expr, n: nat, args: seq<Datum>, a: Activity)
    requires Emitted(d, e, n, args) && Unmixed(d, e) && TypeOf(d, e).None? && e.Compare?
    ensures TreeKind(args, Intended(d, e, n)).None?
    decreases e, 2
  {
    PairFits(d, e, e.left, e.right, n, args, a);
    NoCompare(args, e.op, Intended(d, e.left, n), Intended(d, e.right, After(d, e.left, n)), e.left, e.right,
              TypeOf(d, e.left), TypeOf(d, e.right));
  }

  lemma NoCompare(args: seq<Datum>, op: CompareOp, x: Sql, y: Sql, l: Expr, r: Expr, t: Option<Ty>, u: Option<Ty>)
    requires Fits(l, t, TreeKind(args, x)) && Fits(r, u, TreeKind(args, y)) && !Tests(l) && !Tests(r)
    requires !Mixed(t, u) && (t.Some? ==> u != t)
    ensures TreeKind(args, Cmp(op, x, y)).None?
  {
  }

  lemma {:induction false} JunctionFits(d: Dialect, e: Expr, n: nat, args: seq<Datum>, a: Activity)
    requires Emitted(d, e, n, args) && Unmixed(d, e) && TypeOf(d, e).None? && (e.And? || e.Or?)
    ensures TreeKind(args, Intended(d, e, n)).None?
    decreases e, 2
  {
    var x, y := Intended(d, e.left, n), Intended(d, e.right, After(d, e.left, n));
    PairFits(d, e, e.left, e.right, n, args, a);
    if TypeOf(d, e.left) != Some(TBool) {
      NoNot(args, x, e.left, TypeOf(d, e.left));
    } else {
      NoNot(args, y, e.right, TypeOf(d, e.right));
    }
    assert TreeKind(args, Conj(x, y)).None? && TreeKind(args, Disj(x, y)).None?;
  }

  lemma {:induction false} HasFits(d: Dialect, e: Expr, n: nat, args: seq<Datum>, a: Activity)
    requires Emitted(d, e, n, args) && Unmixed(d, e) && TypeOf(d, e).None?
    requires e.In? && ArrayColumn(d.domain, e.right).Some?
    ensures TreeKind(args, Intended(d, e, n)).None?
    decreases e, 2
  {
    KindFits(d, e.left, n, args, a);
    NoCall(args, FnHas, Col(ArrayColumn(d.domain, e.right).value), Intended(d, e.left, n));
  }

  // A call of two operands needs a string in the second.
  lemma NoCall(args: seq<Datum>, fn: Fn, x: Sql, y: Sql)
    requires fn != FnSearch
    ensures TreeKind(args, y) != Some(KStr) ==> TreeKind(args, Func(fn, [x, y])).None?
    ensures fn != FnHas && TreeKind(args, x) != Some(KStr) ==> TreeKind(args, Func(fn, [x, y])).None?
  {
    var k, l := TreeKind(args, x), TreeKind(args, y);
    assert [x, y][1..] == [y] && [y][1..] == [];
    assert TreeKinds(args, []) == Some([]);
    assert l.Some? ==> TreeKinds(args, [y]) == Some([l.value] + []);
    if k.Some? && l.Some? {
      var ks := [k.value] + ([l.value] + []);
      assert TreeKinds(args, [x, y]) == Some(ks);
      assert |ks| == 2 && ks[0] == k.value && ks[1] == l.value;
    } else {
      assert TreeKinds(args, [x, y]) == None;
    }
  }

  lemma {:induction false} MethodFits(d: Dialect, e: Expr, n: nat, args: seq<Datum>, a: Activity)
    requires Emitted(d, e, n, args) && Unmixed(d, e) && TypeOf(d, e).None? && e.Method?
    ensures TreeKind(args, Intended(d, e, n)).None?
    decreases e, 2
  {
    PairFits(d, e, e.target, e.arg, n, args, a);
    var x, y := Intended(d, e.target, n), Intended(d, e.arg, After(d, e.target, n));
    var fn := if e.name == "contains" then FnPosition else PrefixFn(e.name);
    NoCall(args, fn, x, y);
    assert TreeKind(args, Func(fn, [x, y])).None?;
  }

  lemma {:induction false} PairFits(d: Dialect, e: Expr, l: Expr, r: Expr, n: nat, args: seq<Datum>, a: Activity)
    requires Emitted(d, e, n, args) && TemplateOf(d, e).Pair? && TemplateOf(d, e).l == l && TemplateOf(d, e).r == r
    requires Unmixed(d, l) && Unmixed(d, r)
    ensures Emit(d, l, n).Ok? && Emit(d, r, After(d, l, n)).Ok?
    ensures Fits(l, TypeOf(d, l), TreeKind(args, Intended(d, l, n)))
    ensures Fits(r, TypeOf(d, r), TreeKind(args, Intended(d, r, After(d, l, n))))
    decreases e, 1
  {
    RowAgreesWithMap(d, a);
    PairReady(d, ActivityToMap(a), RowOf(a), e, l, r, n, args);
    KindFits(d, l, n, args, a);
    KindFits(d, r, After(d, l, n), args, a);
  }

  lemma {:induction false} ListFits(d: Dialect, e: Expr, n: nat, args: seq<Datum>, a: Activity)
    requires Emitted(d, e, n, args) && Unmixed(d, e) && TypeOf(d, e).None?
    requires e.In? && ArrayColumn(d.domain, e.right).None?
    ensures TreeKind(args, Intended(d, e, n)).None?
    decreases e, 2
  {
    RowAgreesWithMap(d, a);
    PairReady(d, ActivityToMap(a), RowOf(a), e, e.left, e.right, n, args);
    KindFits(d, e.left, n, args, a);
    var m := After(d, e.left, n);
    var x, y := Intended(d, e.left, n), Intended(d, e.right, m);
    if e.right.ListExpr? && TypeOf(d, e.left).Some? {
      ItemsFit(d, e.right.elements, m, args, TypeOf(d, e.left).value, a);
      assert y == ListOf(IntendedItems(d, e.right.elements, m));
    }
    assert Intended(d, e, n) == Within(x, y) && (y.ListOf? ==> e.right.ListExpr?);
    NoWithin(args, x, y);
  }

  lemma NoWithin(args: seq<Datum>, x: Sql, y: Sql)
    requires y.ListOf? && Scalar(TreeKind(args, x)) ==> !ElementKinds(args, y.items, TreeKind(args, x).value)
    ensures TreeKind(args, Within(x, y)).None?
  {
  }

  lemma {:induction false} ItemsFit(d: Dialect, es: seq<Expr>, n: nat, args: seq<Datum>, t: Ty, a: Activity)
    requires d.domain == ActivityDomain && EmitItems(d, es, n).Ok? && Bound(args, n, EmitItems(d, es, n).value.args)
    requires AllUnmixed(d, es, Some(t))
    ensures AllOfType(d, es, t) <==> ElementKinds(args, IntendedItems(d, es, n), KindFor(t))
    decreases es, 3
  {
    if es != [] {
      ItemsStart(d, es, n);
      ItemsReady(d, es, n, args);
      KindFits(d, es[0], n, args, a);
      var m := After(d, es[0], n);
      var rest := if |es| == 1 then [] else IntendedItems(d, es[1..], m);
      assert IntendedItems(d, es, n) == [Intended(d, es[0], n)] + rest;
      if |es| > 1 {
        ItemsFit(d, es[1..], m, args, t, a);
      } else {
        assert es[1..] == [];
      }
    }
  }

  // The query runs exactly for a typed condition.
  lemma RunsIffTyped(d: Dialect, e: Expr, a: Activity)
    requires d.domain == ActivityDomain && Emit(d, e, 1).Ok? && Safe(d, e) && Unmixed(d, e) && TypeOf(d, e) != Some(TNum)
    ensures Runs(d, e) <==> TypeOf(d, e) == Some(TBool)
  {
    ShapeIsMeant(d, e, 1);
    KindFits(d, e, 1, Data(Emit(d, e, 1).value.args), a);
  }

  // Watch and query give the same answer on an activity, or both none, exactly
  // when the filter is typed or the watch has none either. Left open are filters
  // that compare a test (`ComparedTestDiffers`), or a truth value with a number.
  lemma AgreeIffTyped(d: Dialect, e: Expr, a: Activity)
    requires d.domain == ActivityDomain && Emit(d, e, 1).Ok? && Safe(d, e) && Unmixed(d, e) && TypeOf(d, e) != Some(TNum)
    ensures QueryAnswer(d, e, a) == EvaluateActivity(d, e, a) <==>
            TypeOf(d, e) == Some(TBool) || EvaluateActivity(d, e, a).None?
  {
    AnswersIffRuns(d, e, a);
    RunsIffTyped(d, e, a);
    if TypeOf(d, e) == Some(TBool) {
      WatchAgreesWithQuery(d, e, a);
    }
  }

  lemma SpecFieldValue(d: Dialect, a: Activity, name: string)
    requires name in SpecMap(a)
    ensures CelEval(d, ActivityToMap(a), Field(Ident("spec"), name)) == Some(SpecMap(a)[name])
    ensures CelEval(d, ActivityToMap(a), Has(Ident("spec"), name)) == Some(VBool(true))
  {
    assert CelEval(d, ActivityToMap(a), Ident("spec")) == Some(VMap(SpecMap(a)));
  }

  lemma MixedEmits(d: Dialect, k: int)
    requires d.domain == ActivityDomain
    ensures var e := Compare(Eq, Field(Ident("spec"), "changeSource"), Const(IntConst(k)));
      && ValidateFieldAccess(d.domain, e)
      && Emit(d, e, 1) == Ok(Fragment([ColumnTok(ChangeSource), CompareTok(Eq), Placeholder(1)], [ArgInt(k)]))
      && Safe(d, e) && Intended(d, e, 1) == Cmp(Eq, Col(ChangeSource), Param(1))
  {
    var field, one := Field(Ident("spec"), "changeSource"), Const(IntConst(k));
    assert Emit(d, field, 1) == Ok(Fragment([ColumnTok(ChangeSource)], []));
    assert Emit(d, one, 1) == Ok(Fragment([Placeholder(1)], [ArgInt(k)]));
    assert Intended(d, field, 1) == Col(ChangeSource) && Intended(d, one, 1) == Param(1);
    assert [] + [ColumnTok(ChangeSource)] + [CompareTok(Eq)] + [Placeholder(1)] + [] ==
           [ColumnTok(ChangeSource), CompareTok(Eq), Placeholder(1)];
    assert [] + [ArgInt(k)] == [ArgInt(k)];
  }

  // Fields are dynamically typed, so `spec.changeSource == 1` is accepted. A
  // watch answers false for every activity, and the query fails.
  lemma MixedTypesDisagree(d: Dialect, a: Activity, k: int)
    requires d.domain == ActivityDomain
    ensures var e := Compare(Eq, Field(Ident("spec"), "changeSource"), Const(IntConst(k)));
      && ValidateFieldAccess(d.domain, e) && Emit(d, e, 1).Ok? && Safe(d, e)
      && EvaluateActivity(d, e, a) == Some(false) && QueryAnswer(d, e, a) == None
  {
    MixedEmits(d, k);
    MixedIsFalse(d, a, k);
    SafeReads(d, Compare(Eq, Field(Ident("spec"), "changeSource"), Const(IntConst(k))), RowOf(a), Cmp(Eq, Col(ChangeSource), Param(1)));
    MixedFails(a, k);
  }

  lemma MixedIsFalse(d: Dialect, a: Activity, k: int)
    ensures EvaluateActivity(d, Compare(Eq, Field(Ident("spec"), "changeSource"), Const(IntConst(k))), a) == Some(false)
  {
    SpecFieldValue(d, a, "changeSource");
    assert CelEval(d, ActivityToMap(a), Const(IntConst(k))) == Some(VNum(k as real));
    assert CompareValues(Eq, VStr(a.changeSource), VNum(k as real)) == Some(VBool(false));
  }

  lemma MixedFails(a: Activity, k: int)
    ensures SqlEval(RowOf(a), Data([ArgInt(k)]), Cmp(Eq, Col(ChangeSource), Param(1))) == None
  {
    assert Data([ArgInt(k)]) == [DNum(k as real)];
  }

  // `has(spec.summary)` is accepted too. A watch answers true for every
  // activity, and the query asks for the summary itself, which is no condition.
  lemma HasIsNoCondition(d: Dialect, a: Activity)
    requires d.domain == ActivityDomain
    ensures var e := Has(Ident("spec"), "summary");
      && ValidateFieldAccess(d.domain, e) && Emit(d, e, 1) == Ok(Fragment([ColumnTok(Summary)], [])) && Safe(d, e)
      && EvaluateActivity(d, e, a) == Some(true) && QueryAnswer(d, e, a) == None
  {
    var e := Has(Ident("spec"), "summary");
    SpecFieldValue(d, a, "summary");
    assert Intended(d, e, 1) == Col(Summary);
    SafeReads(d, e, RowOf(a), Col(Summary));
  }

  lemma ComparedTestEmits(d: Dialect)
    requires d.domain == ActivityDomain
    ensures var e := Compare(Eq, Has(Ident("spec"), "summary"), Field(Ident("spec"), "changeSource"));
      && ValidateFieldAccess(d.domain, e) && Emit(d, e, 1).Ok?
      && Safe(d, e) && Intended(d, e, 1) == Cmp(Eq, Col(Summary), Col(ChangeSource))
  {
    var test, field := Has(Ident("spec"), "summary"), Field(Ident("spec"), "changeSource");
    assert Emit(d, test, 1) == Ok(Fragment([ColumnTok(Summary)], []));
    assert Emit(d, field, 1) == Ok(Fragment([ColumnTok(ChangeSource)], []));
    assert Intended(d, test, 1) == Col(Summary) && Intended(d, field, 1) == Col(ChangeSource);
  }

  lemma ComparedTestIsFalse(d: Dialect, a: Activity)
    ensures EvaluateActivity(d, Compare(Eq, Has(Ident("spec"), "summary"), Field(Ident("spec"), "changeSource")), a) == Some(false)
  {
    SpecFieldValue(d, a, "summary");
    SpecFieldValue(d, a, "changeSource");
    assert CompareValues(Eq, VBool(true), VStr(a.changeSource)) == Some(VBool(false));
  }

  // Comparing a test runs: `has(spec.summary) == spec.changeSource` compares the
  // two fields in SQL, while for a watch a truth value never equals a string.
  lemma ComparedTestDiffers(d: Dialect, a: Activity)
    requires d.domain == ActivityDomain
    ensures var e := Compare(Eq, Has(Ident("spec"), "summary"), Field(Ident("spec"), "changeSource"));
      && ValidateFieldAccess(d.domain, e) && Emit(d, e, 1).Ok? && Safe(d, e)
      && EvaluateActivity(d, e, a) == Some(false) && QueryAnswer(d, e, a) == Some(a.summary == a.changeSource)
  {
    var e := Compare(Eq, Has(Ident("spec"), "summary"), Field(Ident("spec"), "changeSource"));
    ComparedTestEmits(d);
    ComparedTestIsFalse(d, a);
    SafeReads(d, e, RowOf(a), Cmp(Eq, Col(Summary), Col(ChangeSource)));
    ComparedColumns(a, Data(Emit(d, e, 1).value.args));
  }

  lemma ComparedColumns(a: Activity, args: seq<Datum>)
    ensures SqlEval(RowOf(a), args, Cmp(Eq, Col(Summary), Col(ChangeSource))) == Some(Truth(a.summary == a.changeSource))
  {
  }
}
