/**
 When a watch and a query agree on every activity, read off the filter alone.
 */
module FilterAgreement {
  import opened Prelude
  import opened CelSyntax
  import opened SqlSyntax
  import opened CelConverter
  import opened FilterParsing
  import opened FilterMeaning
  import opened Activities
  import opened FilterReading
  import opened FilterKinds

  ghost predicate AgreeEverywhere(d: Dialect, e: Expr)
    requires Emit(d, e, 1).Ok?
  {
    forall a :: QueryAnswer(d, e, a) == EvaluateActivity(d, e, a)
  }

  ghost predicate NeverAnswers(d: Dialect, e: Expr) {
    forall a :: EvaluateActivity(d, e, a).None?
  }

  // Watch and query agree on every activity exactly when the filter is typed or
  // no watch ever has an answer.
  lemma AgreeEverywhereIff(d: Dialect, e: Expr)
    requires d.domain == ActivityDomain && Emit(d, e, 1).Ok? && Safe(d, e) && Unmixed(d, e) && TypeOf(d, e) != Some(TNum)
    ensures AgreeEverywhere(d, e) <==> TypeOf(d, e) == Some(TBool) || NeverAnswers(d, e)
  {
    forall a ensures QueryAnswer(d, e, a) == EvaluateActivity(d, e, a) <==>
                     TypeOf(d, e) == Some(TBool) || EvaluateActivity(d, e, a).None?
    {
      AgreeIffTyped(d, e, a);
    }
  }

  // ---------------------------------------------------------------------
  // Filters without a junction answer always or never
  // ---------------------------------------------------------------------

  datatype Sort = One(t: Ty) | Many

  // No && or ||, and no test for a field.
  predicate Plain(e: Expr)
    decreases e, 0
  {
    match e
    case Select(_, _, _) => Reads(e)
    case Not(a) => Plain(a)
    case Compare(_, l, r) => Plain(l) && Plain(r)
    case And(_, _) => false
    case Or(_, _) => false
    case In(l, r) => Plain(l) && Plain(r)
    case Method(_, target, a) => Plain(target) && Plain(a)
    case ListExpr(es) => AllPlain(es)
    case _ => true
  }

  predicate AllPlain(es: seq<Expr>)
    decreases es, 1
  {
    es == [] || (Plain(es[0]) && AllPlain(es[1..]))
  }

  function SortIf(c: bool): Option<Sort> {
    if c then Some(One(TBool)) else None
  }

  // What a watch makes of such a filter; None when it has no value.
  function SortOf(d: Dialect, e: Expr): Option<Sort>
    decreases e, 0
  {
    match e
    case Not(a) => SortIf(SortOf(d, a) == Some(One(TBool)))
    case Compare(op, l, r) =>
      var x, y := SortOf(d, l), SortOf(d, r);
      SortIf(x.Some? && y.Some? && (op.Eq? || op.Ne? || (x == y && x.value.One?)))
    case In(l, r) =>
      SortIf(SortOf(d, l).Some? && (ArrayColumn(d.domain, r).Some? || SortOf(d, r) == Some(Many)))
    case Method(name, target, a) =>
      SortIf((PrefixFunction(name) || name == "contains") &&
             SortOf(d, target) == Some(One(TStr)) && SortOf(d, a) == Some(One(TStr)))
    case ListExpr(es) => if AllSorted(d, es) then Some(Many) else None
    case _ => if TypeOf(d, e).Some? then Some(One(TypeOf(d, e).value)) else None
  }

  predicate AllSorted(d: Dialect, es: seq<Expr>)
    decreases es, 1
  {
    es == [] || (SortOf(d, es[0]).Some? && AllSorted(d, es[1..]))
  }

  // A watch's value is of the filter's sort, and none when it has none.
  predicate IsOf(v: Answer, s: Option<Sort>) {
    match s
    case None => v == None
    case Some(One(t)) => v.Some? && HasType(v.value, t)
    case Some(Many) => v.Some? && v.value.VList?
  }

  lemma {:induction false} SortDecides(d: Dialect, e: Expr, n: nat, a: Activity)
    requires d.domain == ActivityDomain && Emit(d, e, n).Ok? && Plain(e)
    ensures IsOf(CelEval(d, ActivityToMap(a), e), SortOf(d, e))
    decreases e, 2
  {
    match e
    case Not(_) => NotDecides(d, e, n, a);
    case Compare(_, _, _) => CompareDecides(d, e, n, a);
    case In(_, _) => InDecides(d, e, n, a);
    case Method(_, _, _) => MethodDecides(d, e, n, a);
    case ListExpr(es) => ItemsDecide(d, es, n, a);
    case Ident(_) => FieldDecides(d, e, n, a);
    case Select(_, _, _) => FieldDecides(d, e, n, a);
    case _ =>
  }

  lemma {:induction false} NotDecides(d: Dialect, e: Expr, n: nat, a: Activity)
    requires d.domain == ActivityDomain && Emit(d, e, n).Ok? && Plain(e) && e.Not?
    ensures IsOf(CelEval(d, ActivityToMap(a), e), SortOf(d, e))
    decreases e, 1
  {
    SortDecides(d, e.arg, n, a);
  }

  lemma {:induction false} MethodDecides(d: Dialect, e: Expr, n: nat, a: Activity)
    requires d.domain == ActivityDomain && Emit(d, e, n).Ok? && Plain(e) && e.Method?
    ensures IsOf(CelEval(d, ActivityToMap(a), e), SortOf(d, e))
    decreases e, 1
  {
    if e.name == "timestamp" {
      StringsOnly(d, a, e);
    } else {
      PairDecides(d, e, e.target, e.arg, n, a);
    }
  }

  lemma StringsOnly(d: Dialect, a: Activity, e: Expr)
    requires e.Method? && e.name == "timestamp"
    ensures CelEval(d, ActivityToMap(a), e) == None
  {
  }

  lemma FieldDecides(d: Dialect, e: Expr, n: nat, a: Activity)
    requires d.domain == ActivityDomain && Emit(d, e, n).Ok? && (e.Ident? || e.Select?) && Plain(e)
    ensures TypeOf(d, e).Some? && IsOf(CelEval(d, ActivityToMap(a), e), Some(One(TypeOf(d, e).value)))
  {
    AnyFieldAgrees(d, a, e);
  }

  lemma {:induction false} PairDecides(d: Dialect, e: Expr, l: Expr, r: Expr, n: nat, a: Activity)
    requires d.domain == ActivityDomain && Emit(d, e, n).Ok? && Plain(l) && Plain(r)
    requires TemplateOf(d, e).Pair? && TemplateOf(d, e).l == l && TemplateOf(d, e).r == r
    ensures IsOf(CelEval(d, ActivityToMap(a), l), SortOf(d, l)) && IsOf(CelEval(d, ActivityToMap(a), r), SortOf(d, r))
    decreases e, 0
  {
    SortDecides(d, l, n, a);
    SortDecides(d, r, After(d, l, n), a);
  }

  lemma {:induction false} CompareDecides(d: Dialect, e: Expr, n: nat, a: Activity)
    requires d.domain == ActivityDomain && Emit(d, e, n).Ok? && Plain(e) && e.Compare?
    ensures IsOf(CelEval(d, ActivityToMap(a), e), SortOf(d, e))
    decreases e, 1
  {
    PairDecides(d, e, e.left, e.right, n, a);
    var v, w := CelEval(d, ActivityToMap(a), e.left), CelEval(d, ActivityToMap(a), e.right);
    if v.Some? && w.Some? {
      ComparedSorts(e.op, v, SortOf(d, e.left), w, SortOf(d, e.right));
    }
  }

  lemma ComparedSorts(op: CompareOp, v: Answer, x: Option<Sort>, w: Answer, y: Option<Sort>)
    requires IsOf(v, x) && IsOf(w, y) && v.Some? && w.Some?
    ensures IsOf(CompareValues(op, v.value, w.value), SortIf(op.Eq? || op.Ne? || (x == y && x.value.One?)))
  {
  }

  lemma {:induction false} InDecides(d: Dialect, e: Expr, n: nat, a: Activity)
    requires d.domain == ActivityDomain && Emit(d, e, n).Ok? && Plain(e) && e.In?
    ensures IsOf(CelEval(d, ActivityToMap(a), e), SortOf(d, e))
    decreases e, 1
  {
    if ArrayColumn(d.domain, e.right).Some? {
      SortDecides(d, e.left, n, a);
      AnyListAgrees(d, a, e.right);
    } else {
      PairDecides(d, e, e.left, e.right, n, a);
    }
  }

  lemma {:induction false} ItemsDecide(d: Dialect, es: seq<Expr>, n: nat, a: Activity)
    requires d.domain == ActivityDomain && EmitItems(d, es, n).Ok? && AllPlain(es)
    ensures CelEvalAll(d, ActivityToMap(a), es).Some? <==> AllSorted(d, es)
    decreases es, 3
  {
    if es != [] {
      ItemsStart(d, es, n);
      SortDecides(d, es[0], n, a);
      if |es| > 1 {
        ItemsDecide(d, es[1..], After(d, es[0], n), a);
      } else {
        assert es[1..] == [];
      }
    }
  }

  lemma PlainAnswers(d: Dialect, e: Expr, a: Activity)
    requires d.domain == ActivityDomain && Emit(d, e, 1).Ok? && Plain(e)
    ensures EvaluateActivity(d, e, a).None? <==> SortOf(d, e) != Some(One(TBool))
  {
    SortDecides(d, e, 1, a);
  }

  lemma PlainNever(d: Dialect, e: Expr)
    requires d.domain == ActivityDomain && Emit(d, e, 1).Ok? && Plain(e)
    ensures NeverAnswers(d, e) <==> SortOf(d, e) != Some(One(TBool))
  {
    forall a ensures EvaluateActivity(d, e, a).None? <==> SortOf(d, e) != Some(One(TBool)) {
      PlainAnswers(d, e, a);
    }
    var a: Activity :| true;
    PlainAnswers(d, e, a);
  }

  // So for them the condition can be read off the filter.
  lemma PlainAgreeIff(d: Dialect, e: Expr)
    requires d.domain == ActivityDomain && Emit(d, e, 1).Ok? && Safe(d, e) && Unmixed(d, e) && TypeOf(d, e) != Some(TNum) && Plain(e)
    ensures AgreeEverywhere(d, e) <==> TypeOf(d, e) == Some(TBool) || SortOf(d, e) != Some(One(TBool))
  {
    AgreeEverywhereIff(d, e);
    PlainNever(d, e);
  }
}
