/**
 What ClickHouse reads back from the text of a converted filter, and exactly
 when that is the expression the filter meant.
 */
module FilterParsing {
  import opened Prelude
  import opened CelSyntax
  import opened SqlSyntax
  import opened CelConverter

  // ---------------------------------------------------------------------
  // The meaning of a filter, as a SQL tree
  // ---------------------------------------------------------------------

  function Tokens(d: Dialect, e: Expr, n: nat): seq<Token>
    requires Emit(d, e, n).Ok?
  {
    Emit(d, e, n).value.tokens
  }

  // The index of the first argument after those of `e`.
  function After(d: Dialect, e: Expr, n: nat): nat {
    NextIndex(n, Emit(d, e, n))
  }

  function LeafTree(d: Dialect, e: Expr, n: nat): Sql
    requires EmitLeaf(d, e, n).Ok?
  {
    match EmitLeaf(d, e, n).value.tokens[0]
    case ColumnTok(c) => Col(c)
    case Number(v) => Num(v)
    case _ => Param(n)
  }

  function Intended(d: Dialect, e: Expr, n: nat): Sql
    requires Emit(d, e, n).Ok?
    decreases e, 0
  {
    match e
    case Not(a) => Neg(Intended(d, a, n))
    case Compare(op, l, r) => Cmp(op, Intended(d, l, n), Intended(d, r, After(d, l, n)))
    case And(l, r) => Conj(Intended(d, l, n), Intended(d, r, After(d, l, n)))
    case Or(l, r) => Disj(Intended(d, l, n), Intended(d, r, After(d, l, n)))
    case In(l, r) =>
      (match ArrayColumn(d.domain, r)
       case Some(column) => Func(FnHas, [Col(column), Intended(d, l, n)])
       case None => Within(Intended(d, l, n), Intended(d, r, After(d, l, n))))
    case Method(name, target, a) =>
      if PrefixFunction(name) then Func(PrefixFn(name), [Intended(d, target, n), Intended(d, a, After(d, target, n))])
      else if name == "contains" then
        Cmp(Gt, Func(FnPosition, [Intended(d, target, n), Intended(d, a, After(d, target, n))]), Num(0))
      else LeafTree(d, e, n)
    case ListExpr(es) => ListOf(IntendedItems(d, es, n))
    case _ => LeafTree(d, e, n)
  }

  function IntendedItems(d: Dialect, es: seq<Expr>, n: nat): seq<Sql>
    requires EmitItems(d, es, n).Ok?
    decreases es, 1
  {
    if es == [] then []
    else [Intended(d, es[0], n)] + (if |es| == 1 then [] else IntendedItems(d, es[1..], After(d, es[0], n)))
  }

  // ---------------------------------------------------------------------
  // When the text keeps that meaning
  // ---------------------------------------------------------------------

  // Written without parentheses around its two operands.
  predicate Infix(d: Dialect, e: Expr) {
    e.Compare? || (e.In? && ArrayColumn(d.domain, e.right).None?)
  }

  // Starts with NOT when written out.
  predicate LeadsNot(d: Dialect, e: Expr) {
    e.Not? || (Infix(d, e) && LeadsNot(d, e.left))
  }

  // Stands alone as the right operand of a comparison.
  predicate Closed(d: Dialect, e: Expr) {
    !e.Not? && !Infix(d, e) && !(e.Method? && e.name == "contains")
  }

  predicate Safe(d: Dialect, e: Expr)
    decreases e, 0
  {
    match e
    case Not(a) => Safe(d, a)
    case Compare(_, l, r) => Safe(d, l) && Safe(d, r) && !LeadsNot(d, l) && Closed(d, r)
    case And(l, r) => Safe(d, l) && Safe(d, r)
    case Or(l, r) => Safe(d, l) && Safe(d, r)
    case In(l, r) =>
      Safe(d, l) && (ArrayColumn(d.domain, r).Some? || (Safe(d, r) && !LeadsNot(d, l) && Closed(d, r)))
    case Method(name, target, a) => name == "timestamp" || (Safe(d, target) && Safe(d, a))
    case ListExpr(es) => AllSafe(d, es)
    case _ => true
  }

  predicate AllSafe(d: Dialect, es: seq<Expr>)
    decreases es, 1
  {
    es == [] || (Safe(d, es[0]) && AllSafe(d, es[1..]))
  }

  // ---------------------------------------------------------------------
  // What the parser makes of the text
  // ---------------------------------------------------------------------

  // An optional NOT, a first operand, and the operators and operands after it.
  datatype Shape = NoShape | Shape(neg: bool, head: Sql, links: seq<(Token, Sql)>)

  predicate IsOperator(t: Token) {
    t.CompareTok? || t == InKw
  }

  ghost predicate Operators(links: seq<(Token, Sql)>) {
    forall i :: 0 <= i < |links| ==> IsOperator(links[i].0)
  }

  function Fold(t: Sql, links: seq<(Token, Sql)>): Sql
    requires Operators(links)
    decreases links
  {
    if links == [] then t else Fold(Apply(links[0].0, t, links[0].1), links[1..])
  }

  lemma {:induction false} FoldConcat(t: Sql, a: seq<(Token, Sql)>, b: seq<(Token, Sql)>)
    requires Operators(a) && Operators(b)
    ensures Fold(t, a + b) == Fold(Fold(t, a), b)
    decreases a
  {
    if a == [] {
      assert a + b == b;
    } else {
      assert (a + b)[1..] == a[1..] + b;
      FoldConcat(Apply(a[0].0, t, a[0].1), a[1..], b);
    }
  }

  function Both(l: Option<Sql>, r: Option<Sql>): Option<seq<Sql>> {
    if l.None? || r.None? then None else Some([l.value, r.value])
  }

  function Chained(l: Shape, op: Token, r: Shape): Shape {
    if l.NoShape? || r.NoShape? || r.neg then NoShape
    else Shape(l.neg, l.head, l.links + [(op, r.head)] + r.links)
  }

  function Whole(s: Shape): Option<Sql>
    requires s.Shape? ==> Operators(s.links)
  {
    if s.NoShape? then None
    else Some(if s.neg then Neg(Fold(s.head, s.links)) else Fold(s.head, s.links))
  }

  function ShapeOf(d: Dialect, e: Expr, n: nat): (s: Shape)
    requires Emit(d, e, n).Ok?
    ensures s.Shape? ==> Operators(s.links)
    decreases e, 0
  {
    match e
    case Not(a) =>
      var t := Whole(ShapeOf(d, a, n));
      if t.None? then NoShape else Shape(true, t.value, [])
    case Compare(op, l, r) => Chained(ShapeOf(d, l, n), CompareTok(op), ShapeOf(d, r, After(d, l, n)))
    case And(l, r) =>
      var ts := Both(Whole(ShapeOf(d, l, n)), Whole(ShapeOf(d, r, After(d, l, n))));
      if ts.None? then NoShape else Shape(false, Conj(ts.value[0], ts.value[1]), [])
    case Or(l, r) =>
      var ts := Both(Whole(ShapeOf(d, l, n)), Whole(ShapeOf(d, r, After(d, l, n))));
      if ts.None? then NoShape else Shape(false, Disj(ts.value[0], ts.value[1]), [])
    case In(l, r) =>
      (match ArrayColumn(d.domain, r)
       case Some(column) =>
         var t := Whole(ShapeOf(d, l, n));
         if t.None? then NoShape else Shape(false, Func(FnHas, [Col(column), t.value]), [])
       case None => Chained(ShapeOf(d, l, n), InKw, ShapeOf(d, r, After(d, l, n))))
    case Method(name, target, a) =>
      if PrefixFunction(name) then
        var ts := Both(Whole(ShapeOf(d, target, n)), Whole(ShapeOf(d, a, After(d, target, n))));
        if ts.None? then NoShape else Shape(false, Func(PrefixFn(name), ts.value), [])
      else if name == "contains" then
        var ts := Both(Whole(ShapeOf(d, target, n)), Whole(ShapeOf(d, a, After(d, target, n))));
        if ts.None? then NoShape else Shape(false, Func(FnPosition, ts.value), [(CompareTok(Gt), Num(0))])
      else Shape(false, LeafTree(d, e, n), [])
    case ListExpr(es) =>
      var ts := ItemTrees(d, es, n);
      if ts.None? then NoShape else Shape(false, ListOf(ts.value), [])
    case _ => Shape(false, LeafTree(d, e, n), [])
  }

  function ItemTrees(d: Dialect, es: seq<Expr>, n: nat): Option<seq<Sql>>
    requires EmitItems(d, es, n).Ok?
    decreases es, 1
  {
    if es == [] then Some([])
    else
      var t := Whole(ShapeOf(d, es[0], n));
      if |es| == 1 then (if t.None? then None else Some([t.value]))
      else
        var ts := ItemTrees(d, es[1..], After(d, es[0], n));
        if t.None? || ts.None? then None else Some([t.value] + ts.value)
  }

  // ---------------------------------------------------------------------
  // The parser finds that shape
  // ---------------------------------------------------------------------

  // Tokens that end a condition, and those that end an item.
  predicate Ends(rest: seq<Token>) {
    rest == [] || rest[0].RParen? || rest[0].RBracket? || rest[0].Comma? || rest[0].AndKw? || rest[0].OrKw?
  }

  predicate Closes(rest: seq<Token>) {
    rest == [] || rest[0].RParen? || rest[0].RBracket? || rest[0].Comma?
  }

  predicate Starts(t: Token) {
    t.FnTok? || t.ColumnTok? || t.Placeholder? || t.Number? || t.LParen? || t.LBracket?
  }

  function Outcome(t: Option<Sql>, rest: seq<Token>): Parsed {
    if t.None? then Fail else Got(t.value, rest)
  }

  function ItemsOutcome(ts: Option<seq<Sql>>, rest: seq<Token>): ParsedItems {
    if ts.None? then FailItems else GotItems(ts.value, rest)
  }

  // An operand and the comparisons after it, with the comparison it completes.
  function Chain(k: Option<(Sql, Token)>, ts: seq<Token>): Parsed
    requires k.Some? ==> IsOperator(k.value.1)
  {
    match ParsePrimary(ts)
    case Fail => Fail
    case Got(u, rest) => CmpTail(Start(k, u), rest)
  }

  function Start(k: Option<(Sql, Token)>, u: Sql): Sql
    requires k.Some? ==> IsOperator(k.value.1)
  {
    if k.None? then u else Apply(k.value.1, k.value.0, u)
  }

  function Continue(k: Option<(Sql, Token)>, s: Shape, rest: seq<Token>): Parsed
    requires k.Some? ==> IsOperator(k.value.1)
    requires s.Shape? ==> Operators(s.links)
  {
    if s.NoShape? then Fail else CmpTail(Fold(Start(k, s.head), s.links), rest)
  }

  function Dropped(neg: bool, ts: seq<Token>): seq<Token> {
    if neg && ts != [] then ts[1..] else ts
  }

  // An expression's text without the NOT it starts with.
  function Body(d: Dialect, e: Expr, n: nat): seq<Token>
    requires Emit(d, e, n).Ok?
  {
    Dropped(LeadsNot(d, e), Tokens(d, e, n))
  }

  lemma {:induction false} FirstToken(d: Dialect, e: Expr, n: nat)
    requires Emit(d, e, n).Ok?
    ensures Body(d, e, n) != [] && Starts(Body(d, e, n)[0])
    ensures LeadsNot(d, e) ==> Tokens(d, e, n) == [NotKw] + Body(d, e, n)
  {
    if e.Not? {
      NotBody(d, e, n);
    } else if Infix(d, e) {
      FirstToken(d, e.left, n);
      InfixTokens(d, e, n);
    } else if e.Method? {
      MethodTokens(d, e, n);
    } else if e.In? {
      HasTokens(d, e, n);
    }
  }

  // The tokens of each form, one lemma a form.
  function OperatorOf(e: Expr): Token
    requires e.Compare? || e.In?
  {
    if e.In? then InKw else CompareTok(e.op)
  }

  lemma TokensBetween(x: Emitted, t: Token, y: Emitted, whole: Emitted)
    requires whole == Between([], x, [t], y, []) && whole.Ok?
    ensures x.Ok? && y.Ok? && whole.value.tokens == x.value.tokens + [t] + y.value.tokens
  {
  }

  lemma InfixTokens(d: Dialect, e: Expr, n: nat)
    requires Emit(d, e, n).Ok? && Infix(d, e)
    ensures Emit(d, e.left, n).Ok? && Emit(d, e.right, After(d, e.left, n)).Ok?
    ensures Tokens(d, e, n) == Tokens(d, e.left, n) + [OperatorOf(e)] + Tokens(d, e.right, After(d, e.left, n))
  {
    var x := Emit(d, e.left, n);
    var y := Emit(d, e.right, NextIndex(n, x));
    TokensBetween(x, OperatorOf(e), y, Emit(d, e, n));
  }

  lemma MethodTokens(d: Dialect, e: Expr, n: nat)
    requires Emit(d, e, n).Ok? && e.Method?
    ensures e.name == "timestamp" ==> Tokens(d, e, n) == [Placeholder(n)]
    ensures e.name != "timestamp" ==> Emit(d, e.target, n).Ok? && Emit(d, e.arg, After(d, e.target, n)).Ok?
    ensures PrefixFunction(e.name) ==>
              Tokens(d, e, n) == [FnTok(PrefixFn(e.name)), LParen] + CallItems(d, e.target, e.arg, n) + [RParen]
    ensures e.name == "contains" ==>
              Tokens(d, e, n) == [FnTok(FnPosition), LParen] + CallItems(d, e.target, e.arg, n) + [RParen] +
                                 [CompareTok(Gt), Number(0)]
  {
    if e.name == "contains" {
      assert [RParen, CompareTok(Gt), Number(0)] == [RParen] + [CompareTok(Gt), Number(0)];
    }
  }

  function CallItems(d: Dialect, l: Expr, r: Expr, n: nat): seq<Token>
    requires Emit(d, l, n).Ok? && Emit(d, r, After(d, l, n)).Ok?
  {
    Tokens(d, l, n) + [Comma] + Tokens(d, r, After(d, l, n))
  }

  lemma HasTokens(d: Dialect, e: Expr, n: nat)
    requires Emit(d, e, n).Ok? && e.In? && ArrayColumn(d.domain, e.right).Some?
    ensures Emit(d, e.left, n).Ok?
    ensures var c := ArrayColumn(d.domain, e.right).value;
            Tokens(d, e, n) == [FnTok(FnHas), LParen] + ([ColumnTok(c)] + [Comma] + Tokens(d, e.left, n)) + [RParen]
  {
    var c := ArrayColumn(d.domain, e.right).value;
    assert [FnTok(FnHas), LParen, ColumnTok(c), Comma] == [FnTok(FnHas), LParen] + [ColumnTok(c)] + [Comma];
  }

  // Parenthesised conditions, calls and lists, given what their insides parse to.
  lemma ParenPrimary(inner: seq<Token>, t: Option<Sql>, rest: seq<Token>)
    requires ParseOr(inner + ([RParen] + rest)) == Outcome(t, [RParen] + rest)
    ensures ParsePrimary([LParen] + inner + [RParen] + rest) == Outcome(t, rest)
  {
    var ts := [LParen] + inner + [RParen] + rest;
    assert ts[1..] == inner + ([RParen] + rest);
    assert ([RParen] + rest)[1..] == rest;
  }

  lemma CallPrimary(fn: Fn, inner: seq<Token>, ts: Option<seq<Sql>>, rest: seq<Token>)
    requires inner != [] && !inner[0].RParen?
    requires ParseItems(inner + ([RParen] + rest), RParen) == ItemsOutcome(ts, rest)
    ensures ParsePrimary([FnTok(fn), LParen] + inner + [RParen] + rest) ==
            if ts.None? then Fail else Got(Func(fn, ts.value), rest)
  {
    var all := [FnTok(fn), LParen] + inner + [RParen] + rest;
    assert all[0] == FnTok(fn) && At(all[1..], LParen);
    assert all[2..] == inner + ([RParen] + rest);
    assert ParseList(all[2..], RParen) == ItemsOutcome(ts, rest);
  }

  lemma TwoItems(a: seq<Token>, b: seq<Token>, x: Option<Sql>, y: Option<Sql>, rest: seq<Token>)
    requires ParseOr(a + ([Comma] + b + ([RParen] + rest))) == Outcome(x, [Comma] + b + ([RParen] + rest))
    requires ParseOr(b + ([RParen] + rest)) == Outcome(y, [RParen] + rest)
    ensures ParseItems(a + [Comma] + b + ([RParen] + rest), RParen) == ItemsOutcome(Both(x, y), rest)
  {
    var tail := [RParen] + rest;
    assert a + [Comma] + b + tail == a + ([Comma] + b + tail);
    assert ([Comma] + b + tail)[1..] == b + tail;
    assert tail[1..] == rest;
    if x.Some? && y.Some? {
      assert [x.value] + [y.value] == [x.value, y.value];
    }
  }

  lemma ColumnItem(c: Column, rest: seq<Token>)
    requires Closes(rest)
    ensures ParseOr([ColumnTok(c)] + rest) == Got(Col(c), rest)
  {
    var ts := [ColumnTok(c)] + rest;
    assert ts[1..] == rest;
    assert ParsePrimary(ts) == Got(Col(c), rest);
    assert ParseCmp(ts) == Got(Col(c), rest);
    assert ParseNot(ts) == Got(Col(c), rest);
    assert ParseAnd(ts) == Got(Col(c), rest);
  }

  // A whole item or condition.
  lemma {:induction false} OrParse(d: Dialect, e: Expr, n: nat, rest: seq<Token>)
    requires Emit(d, e, n).Ok? && Closes(rest)
    ensures ParseOr(Tokens(d, e, n) + rest) == Outcome(Whole(ShapeOf(d, e, n)), rest)
    decreases e, 4
  {
    NotParse(d, e, n, rest);
    var t := Whole(ShapeOf(d, e, n));
    if t.Some? {
      assert ParseAnd(Tokens(d, e, n) + rest) == AndTail(t.value, rest) == Got(t.value, rest);
    }
  }

  lemma {:induction false} NotParse(d: Dialect, e: Expr, n: nat, rest: seq<Token>)
    requires Emit(d, e, n).Ok? && Ends(rest)
    ensures ParseNot(Tokens(d, e, n) + rest) == Outcome(Whole(ShapeOf(d, e, n)), rest)
    decreases e, 3
  {
    FirstToken(d, e, n);
    ChainParse(d, e, n, None, rest);
    NegOfShape(d, e, n);
    NotFromChain(LeadsNot(d, e), Tokens(d, e, n), ShapeOf(d, e, n), rest);
  }

  lemma NotFromChain(neg: bool, ts: seq<Token>, s: Shape, rest: seq<Token>)
    requires s.Shape? ==> s.neg == neg && Operators(s.links)
    requires Dropped(neg, ts) != [] && Starts(Dropped(neg, ts)[0])
    requires neg ==> ts == [NotKw] + Dropped(neg, ts)
    requires Ends(rest) && Chain(None, Dropped(neg, ts) + rest) == Continue(None, s, rest)
    ensures ParseNot(ts + rest) == Outcome(Whole(s), rest)
  {
    var body := Dropped(neg, ts) + rest;
    assert ParseNot(body) == ParseCmp(body) == Chain(None, body);
    if neg {
      assert ts + rest == [NotKw] + body;
      assert ([NotKw] + body)[1..] == body;
    }
  }

  lemma {:induction false} NegOfShape(d: Dialect, e: Expr, n: nat)
    requires Emit(d, e, n).Ok?
    ensures ShapeOf(d, e, n).Shape? ==> ShapeOf(d, e, n).neg == LeadsNot(d, e)
  {
    if Infix(d, e) {
      InfixTokens(d, e, n);
      NegOfShape(d, e.left, n);
    }
  }

  // The operand an expression starts with, and what is compared to it.
  lemma {:induction false} ChainParse(d: Dialect, e: Expr, n: nat, k: Option<(Sql, Token)>, rest: seq<Token>)
    requires Emit(d, e, n).Ok? && !At(rest, LParen)
    requires k.Some? ==> IsOperator(k.value.1)
    ensures Chain(k, Body(d, e, n) + rest) == Continue(k, ShapeOf(d, e, n), rest)
    decreases e, 2
  {
    if e.Not? {
      NotBody(d, e, n);
      OrParse(d, e.arg, n, [RParen] + rest);
      ParenPrimary(Tokens(d, e.arg, n), Whole(ShapeOf(d, e.arg, n)), rest);
    } else if Infix(d, e) {
      InfixChain(d, e, n, k, rest);
    } else if e.Method? && e.name == "contains" {
      ContainsChain(d, e, n, k, rest);
    } else {
      ClosedPrimary(d, e, n, rest);
    }
  }

  lemma NotBody(d: Dialect, e: Expr, n: nat)
    requires Emit(d, e, n).Ok? && e.Not?
    ensures Emit(d, e.arg, n).Ok?
    ensures Tokens(d, e, n) == [NotKw, LParen] + Tokens(d, e.arg, n) + [RParen]
    ensures Body(d, e, n) == [LParen] + Tokens(d, e.arg, n) + [RParen]
  {
  }

  lemma {:induction false} InfixChain(d: Dialect, e: Expr, n: nat, k: Option<(Sql, Token)>, rest: seq<Token>)
    requires Emit(d, e, n).Ok? && !At(rest, LParen) && Infix(d, e)
    requires k.Some? ==> IsOperator(k.value.1)
    ensures Chain(k, Body(d, e, n) + rest) == Continue(k, ShapeOf(d, e, n), rest)
    decreases e, 1
  {
    InfixTokens(d, e, n);
    InfixBody(d, e, n, rest);
    var op, m := OperatorOf(e), After(d, e.left, n);
    var right := Tokens(d, e.right, m) + rest;
    var l, r := ShapeOf(d, e.left, n), ShapeOf(d, e.right, m);
    ChainParse(d, e.left, n, k, [op] + right);
    if l.Shape? {
      var x := Fold(Start(k, l.head), l.links);
      RightOperand(d, e.right, m, x, op, rest);
      InfixStep(k, l, op, r, right, rest);
    }
  }

  lemma InfixBody(d: Dialect, e: Expr, n: nat, rest: seq<Token>)
    requires Emit(d, e, n).Ok? && Infix(d, e)
    requires Emit(d, e.left, n).Ok? && Emit(d, e.right, After(d, e.left, n)).Ok?
    ensures Body(d, e, n) + rest ==
            Body(d, e.left, n) + ([OperatorOf(e)] + (Tokens(d, e.right, After(d, e.left, n)) + rest))
  {
    InfixTokens(d, e, n);
    FirstToken(d, e.left, n);
    DroppedConcat(LeadsNot(d, e), Tokens(d, e.left, n), OperatorOf(e), Tokens(d, e.right, After(d, e.left, n)), rest);
  }

  lemma DroppedConcat(neg: bool, a: seq<Token>, op: Token, b: seq<Token>, rest: seq<Token>)
    requires a != []
    ensures Dropped(neg, a + [op] + b) + rest == Dropped(neg, a) + ([op] + (b + rest))
  {
  }

  // The right operand of a comparison cannot start with NOT.
  lemma {:induction false} RightOperand(d: Dialect, r: Expr, m: nat, t: Sql, op: Token, rest: seq<Token>)
    requires Emit(d, r, m).Ok? && !At(rest, LParen) && IsOperator(op)
    ensures var s := ShapeOf(d, r, m);
            Chain(Some((t, op)), Tokens(d, r, m) + rest) ==
            if s.Shape? && s.neg then Fail else Continue(Some((t, op)), s, rest)
    decreases r, 3
  {
    NegOfShape(d, r, m);
    FirstToken(d, r, m);
    if LeadsNot(d, r) {
      assert (Tokens(d, r, m) + rest)[0] == NotKw;
    } else {
      ChainParse(d, r, m, Some((t, op)), rest);
    }
  }

  lemma InfixStep(k: Option<(Sql, Token)>, l: Shape, op: Token, r: Shape, right: seq<Token>, rest: seq<Token>)
    requires k.Some? ==> IsOperator(k.value.1)
    requires IsOperator(op) && l.Shape? && Operators(l.links) && (r.Shape? ==> Operators(r.links))
    requires var x := Fold(Start(k, l.head), l.links);
             Chain(Some((x, op)), right) ==
             if r.Shape? && r.neg then Fail else Continue(Some((x, op)), r, rest)
    ensures Continue(k, l, [op] + right) == Continue(k, Chained(l, op, r), rest)
  {
    var x := Fold(Start(k, l.head), l.links);
    assert ([op] + right)[1..] == right;
    assert CmpTail(x, [op] + right) == Chain(Some((x, op)), right);
    if r.Shape? && !r.neg {
      ChainedFold(Start(k, l.head), l.links, op, r.head, r.links);
    }
  }

  lemma ChainedFold(t: Sql, a: seq<(Token, Sql)>, op: Token, u: Sql, b: seq<(Token, Sql)>)
    requires Operators(a) && IsOperator(op) && Operators(b)
    ensures Fold(t, a + [(op, u)] + b) == Fold(Apply(op, Fold(t, a), u), b)
  {
    FoldConcat(t, a + [(op, u)], b);
    FoldConcat(t, a, [(op, u)]);
    assert [(op, u)][1..] == [];
  }

  lemma {:induction false} CallParse(d: Dialect, l: Expr, r: Expr, n: nat, e: Expr, fn: Fn, rest: seq<Token>)
    requires l < e && r < e && Emit(d, l, n).Ok? && Emit(d, r, After(d, l, n)).Ok?
    ensures var ts := Both(Whole(ShapeOf(d, l, n)), Whole(ShapeOf(d, r, After(d, l, n))));
            ParsePrimary([FnTok(fn), LParen] + CallItems(d, l, r, n) + [RParen] + rest) ==
            if ts.None? then Fail else Got(Func(fn, ts.value), rest)
    decreases e, 0
  {
    var m := After(d, l, n);
    var a, b := Tokens(d, l, n), Tokens(d, r, m);
    var x, y := Whole(ShapeOf(d, l, n)), Whole(ShapeOf(d, r, m));
    OrParse(d, l, n, [Comma] + b + ([RParen] + rest));
    OrParse(d, r, m, [RParen] + rest);
    TwoItems(a, b, x, y, rest);
    FirstToken(d, l, n);
    CallPrimary(fn, CallItems(d, l, r, n), Both(x, y), rest);
  }

  lemma {:induction false} ContainsChain(d: Dialect, e: Expr, n: nat, k: Option<(Sql, Token)>, rest: seq<Token>)
    requires Emit(d, e, n).Ok? && e.Method? && e.name == "contains"
    requires k.Some? ==> IsOperator(k.value.1)
    ensures Chain(k, Body(d, e, n) + rest) == Continue(k, ShapeOf(d, e, n), rest)
    decreases e, 1
  {
    MethodTokens(d, e, n);
    var tail := [CompareTok(Gt), Number(0)] + rest;
    CallParse(d, e.target, e.arg, n, e, FnPosition, tail);
    var call := [FnTok(FnPosition), LParen] + CallItems(d, e.target, e.arg, n) + [RParen];
    PositiveChain(k, call, Both(Whole(ShapeOf(d, e.target, n)), Whole(ShapeOf(d, e.arg, After(d, e.target, n)))), rest);
  }

  lemma PositiveChain(k: Option<(Sql, Token)>, call: seq<Token>, ts: Option<seq<Sql>>, rest: seq<Token>)
    requires k.Some? ==> IsOperator(k.value.1)
    requires var tail := [CompareTok(Gt), Number(0)] + rest;
             ParsePrimary(call + tail) == if ts.None? then Fail else Got(Func(FnPosition, ts.value), tail)
    ensures var s := if ts.None? then NoShape else Shape(false, Func(FnPosition, ts.value), [(CompareTok(Gt), Num(0))]);
            Chain(k, call + [CompareTok(Gt), Number(0)] + rest) == Continue(k, s, rest)
  {
    var tail := [CompareTok(Gt), Number(0)] + rest;
    assert call + [CompareTok(Gt), Number(0)] + rest == call + tail;
    assert tail[1..] == [Number(0)] + rest && tail[1..][1..] == rest;
    if ts.Some? {
      var links := [(CompareTok(Gt), Num(0))];
      assert links[1..] == [];
      var t := Start(k, Func(FnPosition, ts.value));
      assert CmpTail(t, tail) == CmpTail(Cmp(Gt, t, Num(0)), rest);
    }
  }

  // Conjunctions, disjunctions, calls, lists, fields and constants.
  lemma {:induction false} ClosedPrimary(d: Dialect, e: Expr, n: nat, rest: seq<Token>)
    requires Emit(d, e, n).Ok? && !At(rest, LParen) && Closed(d, e)
    ensures var s := ShapeOf(d, e, n);
            !LeadsNot(d, e) && (s.Shape? ==> !s.neg && s.links == []) &&
            ParsePrimary(Tokens(d, e, n) + rest) == if s.NoShape? then Fail else Got(s.head, rest)
    decreases e, 1
  {
    match e
    case And(l, r) => JunctionPrimary(d, e, l, AndKw, r, n, rest);
    case Or(l, r) => JunctionPrimary(d, e, l, OrKw, r, n, rest);
    case In(l, r) => HasPrimary(d, e, n, rest);
    case Method(name, target, a) =>
      MethodTokens(d, e, n);
      if PrefixFunction(name) {
        CallParse(d, target, a, n, e, PrefixFn(name), rest);
      }
    case ListExpr(es) => ListPrimary(d, es, n, rest);
    case _ =>
  }

  lemma {:induction false} HasPrimary(d: Dialect, e: Expr, n: nat, rest: seq<Token>)
    requires Emit(d, e, n).Ok? && e.In? && ArrayColumn(d.domain, e.right).Some?
    ensures var s := ShapeOf(d, e, n);
            ParsePrimary(Tokens(d, e, n) + rest) == if s.NoShape? then Fail else Got(s.head, rest)
    decreases e, 0
  {
    HasTokens(d, e, n);
    var c, a := ArrayColumn(d.domain, e.right).value, Tokens(d, e.left, n);
    var t := Whole(ShapeOf(d, e.left, n));
    ColumnItem(c, [Comma] + a + ([RParen] + rest));
    OrParse(d, e.left, n, [RParen] + rest);
    TwoItems([ColumnTok(c)], a, Some(Col(c)), t, rest);
    CallPrimary(FnHas, [ColumnTok(c)] + [Comma] + a, Both(Some(Col(c)), t), rest);
  }

  function Junction(op: Token, l: Sql, r: Sql): Sql {
    if op == AndKw then Conj(l, r) else Disj(l, r)
  }

  lemma {:induction false} JunctionPrimary(d: Dialect, e: Expr, l: Expr, op: Token, r: Expr, n: nat, rest: seq<Token>)
    requires Emit(d, e, n).Ok? && ((e == And(l, r) && op == AndKw) || (e == Or(l, r) && op == OrKw))
    ensures var s := ShapeOf(d, e, n);
            ParsePrimary(Tokens(d, e, n) + rest) == if s.NoShape? then Fail else Got(s.head, rest)
    decreases e, 0
  {
    var m, tail := After(d, l, n), [RParen] + rest;
    var a, b := Tokens(d, l, n), Tokens(d, r, m);
    NotParse(d, l, n, [op] + b + tail);
    NotParse(d, r, m, tail);
    JunctionParen(a, op, b, Whole(ShapeOf(d, l, n)), Whole(ShapeOf(d, r, m)), rest);
  }

  lemma JunctionParen(a: seq<Token>, op: Token, b: seq<Token>, x: Option<Sql>, y: Option<Sql>, rest: seq<Token>)
    requires op.AndKw? || op.OrKw?
    requires ParseNot(a + ([op] + b + ([RParen] + rest))) == Outcome(x, [op] + b + ([RParen] + rest))
    requires ParseNot(b + ([RParen] + rest)) == Outcome(y, [RParen] + rest)
    ensures ParsePrimary([LParen] + a + [op] + b + [RParen] + rest) ==
            if x.None? || y.None? then Fail else Got(Junction(op, x.value, y.value), rest)
  {
    if op.AndKw? {
      AndInner(a, b, x, y, [RParen] + rest);
    } else {
      OrInner(a, b, x, y, [RParen] + rest);
    }
    var t := if x.None? || y.None? then None else Some(Junction(op, x.value, y.value));
    ParenPrimary(a + [op] + b, t, rest);
    assert [LParen] + a + [op] + b == [LParen] + (a + [op] + b);
  }

  lemma AndInner(a: seq<Token>, b: seq<Token>, x: Option<Sql>, y: Option<Sql>, tail: seq<Token>)
    requires Closes(tail)
    requires ParseNot(a + ([AndKw] + b + tail)) == Outcome(x, [AndKw] + b + tail)
    requires ParseNot(b + tail) == Outcome(y, tail)
    ensures ParseOr(a + [AndKw] + b + tail) ==
            if x.None? || y.None? then Fail else Got(Conj(x.value, y.value), tail)
  {
    var all, after := a + [AndKw] + b + tail, [AndKw] + b + tail;
    assert all == a + after && after[1..] == b + tail;
    if x.Some? {
      assert ParseAnd(all) == AndTail(x.value, after);
      if y.Some? {
        assert AndTail(Conj(x.value, y.value), tail) == Got(Conj(x.value, y.value), tail);
        assert ParseAnd(all) == Got(Conj(x.value, y.value), tail);
      } else {
        assert ParseAnd(all) == Fail;
      }
    } else {
      assert ParseAnd(all) == Fail;
    }
  }

  lemma OrInner(a: seq<Token>, b: seq<Token>, x: Option<Sql>, y: Option<Sql>, tail: seq<Token>)
    requires Closes(tail)
    requires ParseNot(a + ([OrKw] + b + tail)) == Outcome(x, [OrKw] + b + tail)
    requires ParseNot(b + tail) == Outcome(y, tail)
    ensures ParseOr(a + [OrKw] + b + tail) ==
            if x.None? || y.None? then Fail else Got(Disj(x.value, y.value), tail)
  {
    var all, after := a + [OrKw] + b + tail, [OrKw] + b + tail;
    assert all == a + after && after[1..] == b + tail;
    if x.Some? {
      assert ParseAnd(all) == AndTail(x.value, after) == Got(x.value, after);
      if y.Some? {
        assert ParseAnd(b + tail) == AndTail(y.value, tail) == Got(y.value, tail);
        assert OrTail(x.value, after) == OrTail(Disj(x.value, y.value), tail);
      } else {
        assert ParseAnd(b + tail) == Fail;
      }
    } else {
      assert ParseAnd(all) == Fail;
    }
  }

  lemma {:induction false} ListPrimary(d: Dialect, es: seq<Expr>, n: nat, rest: seq<Token>)
    requires EmitItems(d, es, n).Ok?
    ensures var ts := ItemTrees(d, es, n);
            ParsePrimary([LBracket] + EmitItems(d, es, n).value.tokens + [RBracket] + rest) ==
            if ts.None? then Fail else Got(ListOf(ts.value), rest)
    decreases es, 6
  {
    if es != [] {
      ItemsParse(d, es, n, rest);
      FirstToken(d, es[0], n);
      ItemsStart(d, es, n);
    }
    BracketPrimary(EmitItems(d, es, n).value.tokens, ItemTrees(d, es, n), rest);
  }

  lemma BracketPrimary(inner: seq<Token>, ts: Option<seq<Sql>>, rest: seq<Token>)
    requires inner == [] ==> ts == Some([])
    requires inner != [] ==> !inner[0].RBracket?
    requires inner != [] ==> ParseItems(inner + ([RBracket] + rest), RBracket) == ItemsOutcome(ts, rest)
    ensures ParsePrimary([LBracket] + inner + [RBracket] + rest) ==
            if ts.None? then Fail else Got(ListOf(ts.value), rest)
  {
    var all := [LBracket] + inner + [RBracket] + rest;
    assert all[1..] == inner + ([RBracket] + rest) && ([RBracket] + rest)[1..] == rest;
  }

  lemma ItemsStart(d: Dialect, es: seq<Expr>, n: nat)
    requires es != [] && EmitItems(d, es, n).Ok?
    ensures Emit(d, es[0], n).Ok?
    ensures Tokens(d, es[0], n) <= EmitItems(d, es, n).value.tokens
    ensures |es| > 1 ==>
              var m := After(d, es[0], n);
              EmitItems(d, es[1..], m).Ok? &&
              EmitItems(d, es, n).value.tokens == Tokens(d, es[0], n) + [Comma] + EmitItems(d, es[1..], m).value.tokens
  {
    var x := Emit(d, es[0], n);
    if |es| > 1 {
      var y := EmitItems(d, es[1..], NextIndex(n, x));
      TokensBetween(x, Comma, y, EmitItems(d, es, n));
    }
  }

  lemma {:induction false} ItemsParse(d: Dialect, es: seq<Expr>, n: nat, rest: seq<Token>)
    requires es != [] && EmitItems(d, es, n).Ok?
    ensures ParseItems(EmitItems(d, es, n).value.tokens + ([RBracket] + rest), RBracket) ==
            ItemsOutcome(ItemTrees(d, es, n), rest)
    decreases es, 5
  {
    var tail := [RBracket] + rest;
    assert tail[1..] == rest;
    ItemsStart(d, es, n);
    if |es| == 1 {
      OrParse(d, es[0], n, tail);
    } else {
      var m := After(d, es[0], n);
      var a, b := Tokens(d, es[0], n), EmitItems(d, es[1..], m).value.tokens;
      OrParse(d, es[0], n, [Comma] + b + tail);
      ItemsParse(d, es[1..], m, rest);
      ItemsStep(a, b, Whole(ShapeOf(d, es[0], n)), ItemTrees(d, es[1..], m), rest);
    }
  }

  lemma ItemsStep(a: seq<Token>, b: seq<Token>, x: Option<Sql>, ys: Option<seq<Sql>>, rest: seq<Token>)
    requires ParseOr(a + ([Comma] + b + ([RBracket] + rest))) == Outcome(x, [Comma] + b + ([RBracket] + rest))
    requires ParseItems(b + ([RBracket] + rest), RBracket) == ItemsOutcome(ys, rest)
    ensures ParseItems(a + [Comma] + b + ([RBracket] + rest), RBracket) ==
            ItemsOutcome(if x.None? || ys.None? then None else Some([x.value] + ys.value), rest)
  {
    var tail := [RBracket] + rest;
    assert a + [Comma] + b + tail == a + ([Comma] + b + tail);
    assert ([Comma] + b + tail)[1..] == b + tail;
  }

  // ---------------------------------------------------------------------
  // When that shape is the intended tree
  // ---------------------------------------------------------------------

  // Never the root of an unparenthesised comparison or negation.
  predicate Primary(t: Sql) {
    !t.Cmp? && !t.Within? && !t.Neg?
  }

  ghost predicate PrimaryLinks(links: seq<(Token, Sql)>) {
    forall i :: 0 <= i < |links| ==> Primary(links[i].1)
  }

  ghost predicate WellShaped(s: Shape, closed: bool) {
    s.Shape? ==>
      PrimaryLinks(s.links) && (!s.neg ==> Primary(s.head)) && (closed <==> !s.neg && s.links == [])
  }

  lemma {:induction false} ShapeIsWell(d: Dialect, e: Expr, n: nat)
    requires Emit(d, e, n).Ok?
    ensures WellShaped(ShapeOf(d, e, n), Closed(d, e))
    ensures Closed(d, e) <==> Primary(Intended(d, e, n))
    decreases e
  {
    if Infix(d, e) {
      InfixTokens(d, e, n);
      ShapeIsWell(d, e.left, n);
      ShapeIsWell(d, e.right, After(d, e.left, n));
      ChainedIsWell(ShapeOf(d, e.left, n), OperatorOf(e), ShapeOf(d, e.right, After(d, e.left, n)),
                    Closed(d, e.left), Closed(d, e.right));
    }
  }

  lemma ChainedIsWell(l: Shape, op: Token, r: Shape, lClosed: bool, rClosed: bool)
    requires WellShaped(l, lClosed) && WellShaped(r, rClosed)
    ensures WellShaped(Chained(l, op, r), false)
  {
  }

  lemma {:induction false} FoldLast(t: Sql, links: seq<(Token, Sql)>)
    requires links != [] && Operators(links)
    ensures var k := |links| - 1;
            Fold(t, links) == Apply(links[k].0, Fold(t, links[..k]), links[k].1)
  {
    var k := |links| - 1;
    assert links == links[..k] + [links[k]];
    FoldConcat(t, links[..k], [links[k]]);
    assert [links[k]][1..] == [];
  }

  lemma ChainedIsMeant(l: Shape, op: Token, r: Shape, x: Sql, y: Sql, lClosed: bool, rClosed: bool)
    requires IsOperator(op) && WellShaped(l, lClosed) && WellShaped(r, rClosed) && (rClosed <==> Primary(y))
    requires (l.Shape? ==> Operators(l.links)) && (r.Shape? ==> Operators(r.links))
    ensures Whole(Chained(l, op, r)) == Some(Apply(op, x, y)) <==>
            Whole(l) == Some(x) && Whole(r) == Some(y) && !l.neg && rClosed
  {
    if l.Shape? && r.Shape? && !r.neg {
      ChainedFold(l.head, l.links, op, r.head, r.links);
      if !rClosed {
        FoldLast(Apply(op, Fold(l.head, l.links), r.head), r.links);
      }
    }
  }

  lemma {:induction false} ShapeIsMeant(d: Dialect, e: Expr, n: nat)
    requires Emit(d, e, n).Ok?
    ensures Whole(ShapeOf(d, e, n)) == Some(Intended(d, e, n)) <==> Safe(d, e)
    decreases e, 1
  {
    if Infix(d, e) {
      InfixIsMeant(d, e, n);
    } else {
      match e
      case Not(a) => ShapeIsMeant(d, a, n);
      case And(l, r) => JunctionIsMeant(d, e, l, r, n);
      case Or(l, r) => JunctionIsMeant(d, e, l, r, n);
      case In(l, r) => ShapeIsMeant(d, l, n);
      case Method(name, target, a) =>
        if name != "timestamp" {
          MethodTokens(d, e, n);
          ShapeIsMeant(d, target, n);
          ShapeIsMeant(d, a, After(d, target, n));
        }
      case ListExpr(es) => ItemsAreMeant(d, es, n);
      case _ =>
    }
  }

  lemma {:induction false} JunctionIsMeant(d: Dialect, e: Expr, l: Expr, r: Expr, n: nat)
    requires Emit(d, e, n).Ok? && (e == And(l, r) || e == Or(l, r))
    ensures Whole(ShapeOf(d, e, n)) == Some(Intended(d, e, n)) <==> Safe(d, e)
    decreases e, 0
  {
    ShapeIsMeant(d, l, n);
    ShapeIsMeant(d, r, After(d, l, n));
  }

  lemma {:induction false} InfixIsMeant(d: Dialect, e: Expr, n: nat)
    requires Emit(d, e, n).Ok? && Infix(d, e)
    ensures Whole(ShapeOf(d, e, n)) == Some(Intended(d, e, n)) <==> Safe(d, e)
    decreases e, 0
  {
    InfixTokens(d, e, n);
    var l, r, m := e.left, e.right, After(d, e.left, n);
    ShapeIsMeant(d, l, n);
    ShapeIsMeant(d, r, m);
    ShapeIsWell(d, l, n);
    ShapeIsWell(d, r, m);
    NegOfShape(d, l, n);
    ChainedIsMeant(ShapeOf(d, l, n), OperatorOf(e), ShapeOf(d, r, m), Intended(d, l, n), Intended(d, r, m),
                   Closed(d, l), Closed(d, r));
  }

  lemma {:induction false} ItemsAreMeant(d: Dialect, es: seq<Expr>, n: nat)
    requires EmitItems(d, es, n).Ok?
    ensures ItemTrees(d, es, n) == Some(IntendedItems(d, es, n)) <==> AllSafe(d, es)
    decreases es, 2
  {
    if es != [] {
      ItemsStart(d, es, n);
      ShapeIsMeant(d, es[0], n);
      if |es| > 1 {
        ItemsAreMeant(d, es[1..], After(d, es[0], n));
        ConsIsMeant(Whole(ShapeOf(d, es[0], n)), ItemTrees(d, es[1..], After(d, es[0], n)),
                    Intended(d, es[0], n), IntendedItems(d, es[1..], After(d, es[0], n)));
      } else {
        assert es[1..] == [];
        ConsIsMeant(Whole(ShapeOf(d, es[0], n)), Some([]), Intended(d, es[0], n), []);
        assert [Intended(d, es[0], n)] + [] == [Intended(d, es[0], n)];
      }
    }
  }

  lemma ConsIsMeant(t: Option<Sql>, ts: Option<seq<Sql>>, x: Sql, xs: seq<Sql>)
    ensures (if t.None? || ts.None? then None else Some([t.value] + ts.value)) == Some([x] + xs) <==>
            t == Some(x) && ts == Some(xs)
  {
    if t.Some? && ts.Some? && [t.value] + ts.value == [x] + xs {
      assert ([t.value] + ts.value)[0] == ([x] + xs)[0];
      assert ([t.value] + ts.value)[1..] == ts.value && ([x] + xs)[1..] == xs;
    }
  }

  // The text of an accepted filter reads back as the filter's meaning exactly
  // when no comparison has a bare comparison or negation as its operand.
  lemma ParsesAsIntended(d: Dialect, e: Expr, n: nat)
    requires Emit(d, e, n).Ok?
    ensures Parse(Tokens(d, e, n)) == Got(Intended(d, e, n), []) <==> Safe(d, e)
  {
    OrParse(d, e, n, []);
    assert Tokens(d, e, n) + [] == Tokens(d, e, n);
    ShapeIsMeant(d, e, n);
  }

  // The same text inside a larger condition, before any closing token.
  lemma ParsesInside(d: Dialect, e: Expr, n: nat, rest: seq<Token>)
    requires Emit(d, e, n).Ok? && Safe(d, e) && Ends(rest)
    ensures ParseNot(Tokens(d, e, n) + rest) == Got(Intended(d, e, n), rest)
  {
    NotParse(d, e, n, rest);
    ShapeIsMeant(d, e, n);
  }

  // Two filters that are different trees and have the same text.
  lemma GroupingIsLost(d: Dialect, a: Expr, b: Expr, c: Expr, n: nat)
    requires Emit(d, Compare(Eq, Compare(Eq, a, b), c), n).Ok?
    ensures var left, right := Compare(Eq, Compare(Eq, a, b), c), Compare(Eq, a, Compare(Eq, b, c));
            Emit(d, right, n) == Emit(d, left, n) && Intended(d, left, n) != Intended(d, right, n) && !Safe(d, right)
  {
    var x := Emit(d, a, n);
    var y := Emit(d, b, NextIndex(n, x));
    var z := Emit(d, c, NextIndex(NextIndex(n, x), y));
    var op := [CompareTok(Eq)];
    assert Emit(d, Compare(Eq, a, b), n) == Between([], x, op, y, []);
    assert Emit(d, Compare(Eq, b, c), NextIndex(n, x)) == Between([], y, op, z, []);
    JoinAssociates(x, y, z, op);
    TreesDiffer(Intended(d, a, n), Intended(d, b, NextIndex(n, x)), Intended(d, c, NextIndex(NextIndex(n, x), y)));
  }

  lemma TreesDiffer(x: Sql, y: Sql, z: Sql)
    ensures Cmp(Eq, Cmp(Eq, x, y), z) != Cmp(Eq, x, Cmp(Eq, y, z))
  {
    var deeper := Cmp(Eq, x, y);
    assert x < deeper;
  }

  lemma JoinAssociates(x: Emitted, y: Emitted, z: Emitted, op: seq<Token>)
    ensures Between([], Between([], x, op, y, []), op, z, []) == Between([], x, op, Between([], y, op, z, []), [])
  {
    if x.Ok? && y.Ok? && z.Ok? {
      var a, b, c := x.value, y.value, z.value;
      assert a.args + b.args + c.args == a.args + (b.args + c.args);
      assert [] + ([] + a.tokens + op + b.tokens + []) + op + c.tokens + [] ==
             [] + a.tokens + op + ([] + b.tokens + op + c.tokens + []) + [];
    }
  }
}
