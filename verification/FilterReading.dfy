/**
 What the database makes of a filter's text, whether or not that is what the
 filter means: the tree it reads, and that this does not depend on where the
 filter's parameters start.
 */
module FilterReading {
  import opened Prelude
  import opened CelSyntax
  import opened SqlSyntax
  import opened CelConverter
  import opened FilterParsing
  import opened FilterMeaning
  import opened ConditionLists
  import opened TextReading
  import opened Activities

  // A filter that does not convert contributes nothing; the builder stops there.
  function FilterFragment(d: Dialect, e: Expr, k: nat): Fragment {
    if Emit(d, e, k).Ok? then Emit(d, e, k).value else Fragment([], [])
  }

  // The tree that the filter's text is read as; None when it does not parse.
  function ReadTree(d: Dialect, e: Expr, n: nat): Option<Sql>
    requires Emit(d, e, n).Ok?
  {
    Whole(ShapeOf(d, e, n))
  }

  // The answer of a query by the filter alone on a row; None when it fails.
  function AnswerOn(d: Dialect, e: Expr, row: Row): Option<bool>
    requires Emit(d, e, 1).Ok?
  {
    RowSelected(row, Data(Emit(d, e, 1).value.args), Text(Blanked(Tokens(d, e, 1))))
  }

  function QueryAnswer(d: Dialect, e: Expr, a: Activity): Option<bool>
    requires Emit(d, e, 1).Ok?
  {
    AnswerOn(d, e, RowOf(a))
  }

  // Any filter's text, safe or not, is read as its tree.
  lemma ReadsAs(d: Dialect, e: Expr, row: Row)
    requires Emit(d, e, 1).Ok?
    ensures AnswerOn(d, e, row) ==
            if ReadTree(d, e, 1).None? then None
            else AsBool(SqlEval(row, Data(Emit(d, e, 1).value.args), ReadTree(d, e, 1).value))
  {
    FilterReadsBack(d, e);
    OrParse(d, e, 1, []);
    assert Tokens(d, e, 1) + [] == Tokens(d, e, 1);
  }

  lemma SafeReads(d: Dialect, e: Expr, row: Row, t: Sql)
    requires Emit(d, e, 1).Ok? && Safe(d, e) && Intended(d, e, 1) == t
    ensures ReadTree(d, e, 1) == Some(t)
    ensures AnswerOn(d, e, row) == AsBool(SqlEval(row, Data(Emit(d, e, 1).value.args), t))
  {
    ShapeIsMeant(d, e, 1);
    ReadsAs(d, e, row);
  }

  // A safe, typed filter answers on a row as CEL does on an object that agrees
  // with it.
  lemma AnswersAsMeant(d: Dialect, e: Expr, env: map<string, Value>, row: Row)
    requires RowAgrees(d, env, row) && Emit(d, e, 1).Ok? && Safe(d, e) && TypeOf(d, e) == Some(TBool)
    ensures CelEval(d, env, e).Some? && CelEval(d, env, e).value.VBool?
    ensures AnswerOn(d, e, row) == Some(CelEval(d, env, e).value.b)
  {
    var t, args := Intended(d, e, 1), Data(Emit(d, e, 1).value.args);
    SafeReads(d, e, row, t);
    KeepsValue(d, env, row, e, 1, args);
    TruthIs(CelEval(d, env, e), SqlEval(row, args, t));
  }

  lemma TruthIs(v: Answer, x: Option<Datum>)
    requires SameValue(v, x, TBool)
    ensures AsBool(x) == Some(v.value.b)
  {
  }

  lemma ReadsInside(d: Dialect, e: Expr, n: nat, rest: seq<Token>)
    requires Emit(d, e, n).Ok? && Ends(rest)
    ensures ParseNot(Tokens(d, e, n) + rest) == Outcome(ReadTree(d, e, n), rest)
  {
    NotParse(d, e, n, rest);
  }

  // ---------------------------------------------------------------------
  // A filter's numbering is only an offset
  // ---------------------------------------------------------------------

  ghost predicate SameButNumbers(x: Emitted, y: Emitted) {
    match x
    case Err(e) => y == Err(e)
    case Ok(f) => y.Ok? && y.value.args == f.args && Blanked(y.value.tokens) == Blanked(f.tokens)
  }

  lemma SameAround(pre: seq<Token>, x: Emitted, y: Emitted, post: seq<Token>)
    requires SameButNumbers(x, y)
    ensures SameButNumbers(Around(pre, x, post), Around(pre, y, post))
  {
    if x.Ok? {
      BlankedAround(pre, x.value.tokens, post);
      BlankedAround(pre, y.value.tokens, post);
    }
  }

  lemma SameBetween(pre: seq<Token>, x: Emitted, x': Emitted, mid: seq<Token>, y: Emitted, y': Emitted, post: seq<Token>)
    requires SameButNumbers(x, x') && SameButNumbers(y, y')
    ensures SameButNumbers(Between(pre, x, mid, y, post), Between(pre, x', mid, y', post))
  {
    if x.Ok? && y.Ok? {
      BlankedAround(pre, x.value.tokens, mid);
      BlankedAround(pre, x'.value.tokens, mid);
      BlankedAround(pre + x.value.tokens + mid, y.value.tokens, post);
      BlankedAround(pre + x'.value.tokens + mid, y'.value.tokens, post);
    }
  }

  lemma {:induction false} FilterOffset(d: Dialect, e: Expr, n: nat, m: nat)
    ensures SameButNumbers(Emit(d, e, n), Emit(d, e, m))
    decreases e, 0
  {
    match TemplateOf(d, e)
    case Leaf =>
    case Wrap(pre, x, post) =>
      FilterOffset(d, x, n, m);
      SameAround(pre, Emit(d, x, n), Emit(d, x, m), post);
    case Pair(pre, l, mid, r, post) =>
      var x, y := Emit(d, l, n), Emit(d, l, m);
      FilterOffset(d, l, n, m);
      FilterOffset(d, r, NextIndex(n, x), NextIndex(m, y));
      SameBetween(pre, x, y, mid, Emit(d, r, NextIndex(n, x)), Emit(d, r, NextIndex(m, y)), post);
    case Items(es) =>
      ItemsOffset(d, es, n, m);
      SameAround([LBracket], EmitItems(d, es, n), EmitItems(d, es, m), [RBracket]);
  }

  lemma {:induction false} ItemsOffset(d: Dialect, es: seq<Expr>, n: nat, m: nat)
    ensures SameButNumbers(EmitItems(d, es, n), EmitItems(d, es, m))
    decreases es, 1
  {
    if es != [] {
      var x, y := Emit(d, es[0], n), Emit(d, es[0], m);
      FilterOffset(d, es[0], n, m);
      if |es| > 1 {
        ItemsOffset(d, es[1..], NextIndex(n, x), NextIndex(m, y));
        SameBetween([], x, y, [Comma], EmitItems(d, es[1..], NextIndex(n, x)), EmitItems(d, es[1..], NextIndex(m, y)), []);
      }
    }
  }

  // ---------------------------------------------------------------------
  // The same text read with other parameter numbers
  // ---------------------------------------------------------------------

  function ParamValue(xs: seq<Datum>, n: nat): Option<Datum> {
    if 1 <= n <= |xs| then Some(xs[n - 1]) else None
  }

  // Two trees that differ in parameter numbers only, which stand for the same values.
  predicate Alike(xs: seq<Datum>, t: Sql, ys: seq<Datum>, u: Sql)
    decreases t, 0
  {
    match t
    case Param(n) => u.Param? && ParamValue(xs, n) == ParamValue(ys, u.n)
    case Func(fn, ts) => u.Func? && u.fn == fn && AllAlike(xs, ts, ys, u.args)
    case ListOf(ts) => u.ListOf? && AllAlike(xs, ts, ys, u.items)
    case Cmp(op, l, r) => u.Cmp? && u.op == op && Alike(xs, l, ys, u.l) && Alike(xs, r, ys, u.r)
    case Within(l, r) => u.Within? && Alike(xs, l, ys, u.l) && Alike(xs, r, ys, u.r)
    case Conj(l, r) => u.Conj? && Alike(xs, l, ys, u.l) && Alike(xs, r, ys, u.r)
    case Disj(l, r) => u.Disj? && Alike(xs, l, ys, u.l) && Alike(xs, r, ys, u.r)
    case Neg(x) => u.Neg? && Alike(xs, x, ys, u.x)
    case _ => u == t
  }

  predicate AllAlike(xs: seq<Datum>, ts: seq<Sql>, ys: seq<Datum>, us: seq<Sql>)
    decreases ts, 1
  {
    if ts == [] then us == []
    else us != [] && Alike(xs, ts[0], ys, us[0]) && AllAlike(xs, ts[1..], ys, us[1..])
  }

  lemma {:induction false} AlikeEval(row: Row, xs: seq<Datum>, t: Sql, ys: seq<Datum>, u: Sql)
    requires Alike(xs, t, ys, u)
    ensures SqlEval(row, xs, t) == SqlEval(row, ys, u)
    decreases t, 0
  {
    match t
    case Func(_, ts) => AllAlikeEval(row, xs, ts, ys, u.args);
    case ListOf(ts) => AllAlikeEval(row, xs, ts, ys, u.items);
    case Cmp(_, l, r) =>
      AlikeEval(row, xs, l, ys, u.l);
      AlikeEval(row, xs, r, ys, u.r);
    case Within(l, r) =>
      AlikeEval(row, xs, l, ys, u.l);
      if r.ListOf? {
        AllAlikeEval(row, xs, r.items, ys, u.r.items);
      }
    case Conj(l, r) =>
      AlikeEval(row, xs, l, ys, u.l);
      AlikeEval(row, xs, r, ys, u.r);
    case Disj(l, r) =>
      AlikeEval(row, xs, l, ys, u.l);
      AlikeEval(row, xs, r, ys, u.r);
    case Neg(x) => AlikeEval(row, xs, x, ys, u.x);
    case _ =>
  }

  lemma {:induction false} AllAlikeEval(row: Row, xs: seq<Datum>, ts: seq<Sql>, ys: seq<Datum>, us: seq<Sql>)
    requires AllAlike(xs, ts, ys, us)
    ensures SqlEvalAll(row, xs, ts) == SqlEvalAll(row, ys, us)
    decreases ts, 1
  {
    if ts != [] {
      AlikeEval(row, xs, ts[0], ys, us[0]);
      AllAlikeEval(row, xs, ts[1..], ys, us[1..]);
    }
  }

  predicate LinksAlike(xs: seq<Datum>, a: seq<(Token, Sql)>, ys: seq<Datum>, b: seq<(Token, Sql)>) {
    |a| == |b| && forall i :: 0 <= i < |a| ==> a[i].0 == b[i].0 && Alike(xs, a[i].1, ys, b[i].1)
  }

  predicate ShapesAlike(xs: seq<Datum>, s: Shape, ys: seq<Datum>, t: Shape) {
    match s
    case NoShape => t == NoShape
    case Shape(neg, head, links) =>
      t.Shape? && t.neg == neg && Alike(xs, head, ys, t.head) && LinksAlike(xs, links, ys, t.links)
  }

  lemma {:induction false} FoldAlike(xs: seq<Datum>, t: Sql, a: seq<(Token, Sql)>, ys: seq<Datum>, u: Sql, b: seq<(Token, Sql)>)
    requires Operators(a) && Operators(b) && Alike(xs, t, ys, u) && LinksAlike(xs, a, ys, b)
    ensures Alike(xs, Fold(t, a), ys, Fold(u, b))
    decreases a
  {
    if a != [] {
      FoldAlike(xs, Apply(a[0].0, t, a[0].1), a[1..], ys, Apply(b[0].0, u, b[0].1), b[1..]);
    }
  }

  predicate TreesAlike(xs: seq<Datum>, t: Option<Sql>, ys: seq<Datum>, u: Option<Sql>) {
    t.Some? == u.Some? && (t.Some? ==> Alike(xs, t.value, ys, u.value))
  }

  lemma WholeAlike(xs: seq<Datum>, s: Shape, ys: seq<Datum>, t: Shape)
    requires (s.Shape? ==> Operators(s.links)) && (t.Shape? ==> Operators(t.links)) && ShapesAlike(xs, s, ys, t)
    ensures TreesAlike(xs, Whole(s), ys, Whole(t))
  {
    if s.Shape? {
      FoldAlike(xs, s.head, s.links, ys, t.head, t.links);
    }
  }

  lemma ChainedAlike(xs: seq<Datum>, l: Shape, r: Shape, ys: seq<Datum>, l': Shape, r': Shape, op: Token)
    requires ShapesAlike(xs, l, ys, l') && ShapesAlike(xs, r, ys, r')
    ensures ShapesAlike(xs, Chained(l, op, r), ys, Chained(l', op, r'))
  {
  }

  // The filter's arguments are bound from n on in `xs`.
  ghost predicate Placed(d: Dialect, e: Expr, n: nat, xs: seq<Datum>) {
    Emit(d, e, n).Ok? && Bound(xs, n, Emit(d, e, n).value.args)
  }

  lemma PlacedPair(d: Dialect, e: Expr, l: Expr, r: Expr, n: nat, xs: seq<Datum>)
    requires Placed(d, e, n, xs) && TemplateOf(d, e).Pair? && TemplateOf(d, e).l == l && TemplateOf(d, e).r == r
    ensures Placed(d, l, n, xs) && Placed(d, r, After(d, l, n), xs)
  {
    BoundSplit(xs, n, Emit(d, l, n).value.args, Emit(d, r, After(d, l, n)).value.args);
  }

  lemma {:induction false} ShapeAlike(d: Dialect, e: Expr, n: nat, xs: seq<Datum>, m: nat, ys: seq<Datum>)
    requires Placed(d, e, n, xs) && Placed(d, e, m, ys)
    ensures ShapesAlike(xs, ShapeOf(d, e, n), ys, ShapeOf(d, e, m))
    decreases e, 3
  {
    match e
    case Not(a) => WholesAlike(d, a, n, xs, m, ys);
    case Compare(_, _, _) => InfixAlike(d, e, n, xs, m, ys);
    case And(_, _) => JunctionAlike(d, e, n, xs, m, ys);
    case Or(_, _) => JunctionAlike(d, e, n, xs, m, ys);
    case In(_, r) =>
      if ArrayColumn(d.domain, r).Some? {
        MemberAlike(d, e, n, xs, m, ys);
      } else {
        InfixAlike(d, e, n, xs, m, ys);
      }
    case Method(_, _, _) => MethodAlike(d, e, n, xs, m, ys);
    case ListExpr(es) => ItemsAlike(d, es, n, xs, m, ys);
    case _ => LeafAlike(d, e, n, xs, m, ys);
  }

  lemma {:induction false} JunctionAlike(d: Dialect, e: Expr, n: nat, xs: seq<Datum>, m: nat, ys: seq<Datum>)
    requires Placed(d, e, n, xs) && Placed(d, e, m, ys) && (e.And? || e.Or?)
    ensures ShapesAlike(xs, ShapeOf(d, e, n), ys, ShapeOf(d, e, m))
    decreases e, 2
  {
    PairAlike(d, e, e.left, e.right, n, xs, m, ys);
  }

  lemma {:induction false} MemberAlike(d: Dialect, e: Expr, n: nat, xs: seq<Datum>, m: nat, ys: seq<Datum>)
    requires Placed(d, e, n, xs) && Placed(d, e, m, ys) && e.In? && ArrayColumn(d.domain, e.right).Some?
    ensures ShapesAlike(xs, ShapeOf(d, e, n), ys, ShapeOf(d, e, m))
    decreases e, 2
  {
    WholesAlike(d, e.left, n, xs, m, ys);
    HasAlike(xs, Whole(ShapeOf(d, e.left, n)), ys, Whole(ShapeOf(d, e.left, m)), Col(ArrayColumn(d.domain, e.right).value));
  }

  lemma {:induction false} InfixAlike(d: Dialect, e: Expr, n: nat, xs: seq<Datum>, m: nat, ys: seq<Datum>)
    requires Placed(d, e, n, xs) && Placed(d, e, m, ys) && Infix(d, e)
    ensures ShapesAlike(xs, ShapeOf(d, e, n), ys, ShapeOf(d, e, m))
    decreases e, 2
  {
    var l, r := e.left, e.right;
    PairAlike(d, e, l, r, n, xs, m, ys);
    ChainedAlike(xs, ShapeOf(d, l, n), ShapeOf(d, r, After(d, l, n)), ys, ShapeOf(d, l, m), ShapeOf(d, r, After(d, l, m)),
                 OperatorOf(e));
  }

  lemma {:induction false} MethodAlike(d: Dialect, e: Expr, n: nat, xs: seq<Datum>, m: nat, ys: seq<Datum>)
    requires Placed(d, e, n, xs) && Placed(d, e, m, ys) && e.Method?
    ensures ShapesAlike(xs, ShapeOf(d, e, n), ys, ShapeOf(d, e, m))
    decreases e, 2
  {
    if e.name == "timestamp" {
      LeafAlike(d, e, n, xs, m, ys);
    } else {
      PairAlike(d, e, e.target, e.arg, n, xs, m, ys);
      CallAlike(xs, Whole(ShapeOf(d, e.target, n)), Whole(ShapeOf(d, e.arg, After(d, e.target, n))),
                ys, Whole(ShapeOf(d, e.target, m)), Whole(ShapeOf(d, e.arg, After(d, e.target, m))));
    }
  }

  lemma {:induction false} WholesAlike(d: Dialect, e: Expr, n: nat, xs: seq<Datum>, m: nat, ys: seq<Datum>)
    requires Placed(d, e, n, xs) && Placed(d, e, m, ys)
    ensures TreesAlike(xs, ReadTree(d, e, n), ys, ReadTree(d, e, m))
    decreases e, 4
  {
    ShapeAlike(d, e, n, xs, m, ys);
    WholeAlike(xs, ShapeOf(d, e, n), ys, ShapeOf(d, e, m));
  }

  lemma {:induction false} PairAlike(d: Dialect, e: Expr, l: Expr, r: Expr, n: nat, xs: seq<Datum>, m: nat, ys: seq<Datum>)
    requires Placed(d, e, n, xs) && Placed(d, e, m, ys)
    requires TemplateOf(d, e).Pair? && TemplateOf(d, e).l == l && TemplateOf(d, e).r == r
    ensures Placed(d, l, n, xs) && Placed(d, l, m, ys) && Placed(d, r, After(d, l, n), xs) && Placed(d, r, After(d, l, m), ys)
    ensures ShapesAlike(xs, ShapeOf(d, l, n), ys, ShapeOf(d, l, m))
    ensures ShapesAlike(xs, ShapeOf(d, r, After(d, l, n)), ys, ShapeOf(d, r, After(d, l, m)))
    ensures TreesAlike(xs, ReadTree(d, l, n), ys, ReadTree(d, l, m))
    ensures TreesAlike(xs, ReadTree(d, r, After(d, l, n)), ys, ReadTree(d, r, After(d, l, m)))
    decreases e, 1
  {
    PlacedPair(d, e, l, r, n, xs);
    PlacedPair(d, e, l, r, m, ys);
    ShapeAlike(d, l, n, xs, m, ys);
    ShapeAlike(d, r, After(d, l, n), xs, After(d, l, m), ys);
    WholesAlike(d, l, n, xs, m, ys);
    WholesAlike(d, r, After(d, l, n), xs, After(d, l, m), ys);
  }

  lemma HasAlike(xs: seq<Datum>, t: Option<Sql>, ys: seq<Datum>, u: Option<Sql>, c: Sql)
    requires TreesAlike(xs, t, ys, u) && c.Col?
    ensures t.Some? ==> AllAlike(xs, [c, t.value], ys, [c, u.value])
  {
    if t.Some? {
      TwoAlike(xs, c, t.value, ys, c, u.value);
    }
  }

  lemma TwoAlike(xs: seq<Datum>, s: Sql, t: Sql, ys: seq<Datum>, s': Sql, t': Sql)
    requires Alike(xs, s, ys, s') && Alike(xs, t, ys, t')
    ensures AllAlike(xs, [s, t], ys, [s', t'])
  {
    assert [s, t][1..] == [t] && [s', t'][1..] == [t'] && [t][1..] == [] && [t'][1..] == [];
    assert AllAlike(xs, [], ys, []);
    assert AllAlike(xs, [t], ys, [t']);
  }

  lemma CallAlike(xs: seq<Datum>, s: Option<Sql>, t: Option<Sql>, ys: seq<Datum>, s': Option<Sql>, t': Option<Sql>)
    requires TreesAlike(xs, s, ys, s') && TreesAlike(xs, t, ys, t')
    ensures Both(s, t).Some? == Both(s', t').Some?
    ensures Both(s, t).Some? ==> AllAlike(xs, Both(s, t).value, ys, Both(s', t').value)
  {
    if s.Some? && t.Some? {
      TwoAlike(xs, s.value, t.value, ys, s'.value, t'.value);
    }
  }

  lemma LeafAlike(d: Dialect, e: Expr, n: nat, xs: seq<Datum>, m: nat, ys: seq<Datum>)
    requires Placed(d, e, n, xs) && Placed(d, e, m, ys) && TemplateOf(d, e).Leaf?
    ensures EmitLeaf(d, e, n).Ok? && EmitLeaf(d, e, m).Ok? && Alike(xs, LeafTree(d, e, n), ys, LeafTree(d, e, m))
  {
    var a, b := EmitLeaf(d, e, n).value.args, EmitLeaf(d, e, m).value.args;
    assert a == b && |a| <= 1;
    if a != [] {
      assert xs[n - 1 + 0] == ArgDatum(a[0]) == ys[m - 1 + 0];
    }
  }

  lemma {:induction false} ItemsAlike(d: Dialect, es: seq<Expr>, n: nat, xs: seq<Datum>, m: nat, ys: seq<Datum>)
    requires EmitItems(d, es, n).Ok? && Bound(xs, n, EmitItems(d, es, n).value.args)
    requires EmitItems(d, es, m).Ok? && Bound(ys, m, EmitItems(d, es, m).value.args)
    ensures ItemTrees(d, es, n).Some? == ItemTrees(d, es, m).Some?
    ensures ItemTrees(d, es, n).Some? ==> AllAlike(xs, ItemTrees(d, es, n).value, ys, ItemTrees(d, es, m).value)
    decreases es, 5
  {
    if es != [] {
      ItemsReady(d, es, n, xs);
      ItemsReady(d, es, m, ys);
      WholesAlike(d, es[0], n, xs, m, ys);
      var t, u := ReadTree(d, es[0], n), ReadTree(d, es[0], m);
      if |es| == 1 {
        ConsAlike(xs, t, Some([]), ys, u, Some([]));
      } else {
        var ts, us := ItemTrees(d, es[1..], After(d, es[0], n)), ItemTrees(d, es[1..], After(d, es[0], m));
        ItemsAlike(d, es[1..], After(d, es[0], n), xs, After(d, es[0], m), ys);
        ConsAlike(xs, t, ts, ys, u, us);
      }
    }
  }

  lemma ConsAlike(xs: seq<Datum>, t: Option<Sql>, ts: Option<seq<Sql>>, ys: seq<Datum>, u: Option<Sql>, us: Option<seq<Sql>>)
    requires TreesAlike(xs, t, ys, u) && ts.Some? == us.Some? && (ts.Some? ==> AllAlike(xs, ts.value, ys, us.value))
    ensures t.Some? && ts.Some? ==> AllAlike(xs, [t.value] + ts.value, ys, [u.value] + us.value)
    ensures t.Some? ==> AllAlike(xs, [t.value], ys, [u.value])
  {
    if t.Some? {
      assert [t.value][1..] == [] && [u.value][1..] == [];
      assert AllAlike(xs, [], ys, []);
      if ts.Some? {
        var all, also := [t.value] + ts.value, [u.value] + us.value;
        assert all[1..] == ts.value && also[1..] == us.value;
      }
    }
  }

  // Wherever its parameters start, a filter's text has the value it has alone.
  lemma ReadOffset(d: Dialect, e: Expr, row: Row, k: nat, args: seq<Datum>)
    requires Emit(d, e, 1).Ok? && Window(args, k, Data(Emit(d, e, 1).value.args))
    ensures Emit(d, e, k).Ok? && ReadTree(d, e, k).Some? == ReadTree(d, e, 1).Some?
    ensures ReadTree(d, e, 1).Some? ==>
              SqlEval(row, args, ReadTree(d, e, k).value) == SqlEval(row, Data(Emit(d, e, 1).value.args), ReadTree(d, e, 1).value)
  {
    FilterOffset(d, e, 1, k);
    var xs := Emit(d, e, 1).value.args;
    WindowBinds(args, k, xs);
    WholesAlike(d, e, 1, Data(xs), k, args);
    if ReadTree(d, e, 1).Some? {
      AlikeEval(row, Data(xs), ReadTree(d, e, 1).value, args, ReadTree(d, e, k).value);
    }
  }

  lemma WindowBinds(args: seq<Datum>, k: nat, xs: seq<Arg>)
    requires Window(args, k, Data(xs))
    ensures Bound(args, k, xs)
  {
    forall i | 0 <= i < |xs| ensures args[k - 1 + i] == ArgDatum(xs[i]) {
      WindowAt(args, k, Data(xs), i);
    }
  }

  // A filter among other conditions answers as it does alone.
  lemma FilterJudged(d: Dialect, e: Expr, row: Row, args: seq<Datum>, k: nat, p: Part)
    requires Emit(d, e, 1).Ok? && Window(args, k, Data(Emit(d, e, 1).value.args))
    requires p.tokens == FilterFragment(d, e, k).tokens
    requires Emit(d, e, k).Ok? && ReadTree(d, e, k).Some? ==> p.tree == ReadTree(d, e, k).value
    ensures Judged(row, args, p, AnswerOn(d, e, row))
  {
    ReadOffset(d, e, row, k, args);
    ReadsAs(d, e, row);
    forall rest | Ends(rest) ensures ParseNot(p.tokens + rest) == Outcome(ReadTree(d, e, k), rest) {
      ReadsInside(d, e, k, rest);
    }
  }
}
