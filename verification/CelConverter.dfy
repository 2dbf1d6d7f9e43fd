/**
 Conversion of a checked CEL expression to the text of a SQL condition with
 numbered placeholders, collecting one argument per placeholder.
 */
module CelConverter {
  import opened Prelude
  import opened CelSyntax
  import opened SqlSyntax

  datatype Arg =
    | ArgString(s: string)
    | ArgInt(i: int)
    | ArgUint(u: nat)
    | ArgDouble(d: real)
    | ArgTime(t: int)

  // The field mapper in use, and the RFC 3339 parser.
  datatype Dialect = Dialect(domain: Domain, parseTime: string -> Option<int>)

  datatype Fragment = Fragment(tokens: seq<Token>, args: seq<Arg>)

  type Emitted = Result<Fragment, ConvertError>

  // ---------------------------------------------------------------------
  // What the converter emits, as tokens
  // ---------------------------------------------------------------------

  function NextIndex(n: nat, before: Emitted): nat {
    if before.Ok? then n + |before.value.args| else n
  }

  function Around(pre: seq<Token>, x: Emitted, post: seq<Token>): Emitted {
    if x.Err? then x else Ok(Fragment(pre + x.value.tokens + post, x.value.args))
  }

  function Between(pre: seq<Token>, l: Emitted, mid: seq<Token>, r: Emitted, post: seq<Token>): Emitted {
    if l.Err? then l
    else if r.Err? then r
    else Ok(Fragment(pre + l.value.tokens + mid + r.value.tokens + post, l.value.args + r.value.args))
  }

  function EmitColumn(column: Result<Column, ConvertError>): Emitted {
    match column
    case Ok(c) => Ok(Fragment([ColumnTok(c)], []))
    case Err(e) => Err(e)
  }

  function EmitConst(c: Constant, n: nat): Emitted {
    match c
    case StringConst(s) => Ok(Fragment([Placeholder(n)], [ArgString(s)]))
    case IntConst(i) => Ok(Fragment([Placeholder(n)], [ArgInt(i)]))
    case UintConst(u) => Ok(Fragment([Placeholder(n)], [ArgUint(u)]))
    case DoubleConst(r) => Ok(Fragment([Placeholder(n)], [ArgDouble(r)]))
    case BoolConst(b) => Ok(Fragment([Number(if b then 1 else 0)], []))
    case OtherConst => Err(UnsupportedExpression)
  }

  predicate TimestampLiteral(args: seq<Expr>) {
    |args| == 1 && args[0].Const? && args[0].value.StringConst? && args[0].value.s != ""
  }

  function EmitTimestamp(d: Dialect, args: seq<Expr>, n: nat): Emitted {
    if !TimestampLiteral(args) then Err(UnsupportedExpression)
    else match d.parseTime(args[0].value.s)
      case None => Err(InvalidTimestamp)
      case Some(t) => Ok(Fragment([Placeholder(n)], [ArgTime(t)]))
  }

  predicate PrefixFunction(name: string) {
    name == "startsWith" || name == "endsWith"
  }

  function PrefixFn(name: string): Fn {
    if name == "startsWith" then FnStartsWith else FnEndsWith
  }

  // The text written around an expression's operands.
  datatype Template =
    | Leaf
    | Wrap(pre: seq<Token>, x: Expr, post: seq<Token>)
    | Pair(pre: seq<Token>, l: Expr, mid: seq<Token>, r: Expr, post: seq<Token>)
    | Items(es: seq<Expr>)

  function TemplateOf(d: Dialect, e: Expr): (t: Template)
    ensures t.Wrap? ==> t.x < e
    ensures t.Pair? ==> t.l < e && t.r < e
    ensures t.Items? ==> e == ListExpr(t.es)
  {
    match e
    case Not(a) => Wrap([NotKw, LParen], a, [RParen])
    case Compare(op, l, r) => Pair([], l, [CompareTok(op)], r, [])
    case And(l, r) => Pair([LParen], l, [AndKw], r, [RParen])
    case Or(l, r) => Pair([LParen], l, [OrKw], r, [RParen])
    case In(l, r) =>
      (match ArrayColumn(d.domain, r)
       case Some(column) => Wrap([FnTok(FnHas), LParen, ColumnTok(column), Comma], l, [RParen])
       case None => Pair([], l, [InKw], r, []))
    case Method(name, target, a) =>
      if PrefixFunction(name) then Pair([FnTok(PrefixFn(name)), LParen], target, [Comma], a, [RParen])
      else if name == "contains" then
        Pair([FnTok(FnPosition), LParen], target, [Comma], a, [RParen, CompareTok(Gt), Number(0)])
      else Leaf
    case ListExpr(elements) => Items(elements)
    case _ => Leaf
  }

  function EmitLeaf(d: Dialect, e: Expr, n: nat): Emitted {
    match e
    case Const(c) => EmitConst(c, n)
    case Ident(name) => EmitColumn(MapIdentExpr(d.domain, name))
    case Select(operand, field, _) => EmitColumn(MapSelectExpr(d.domain, operand, field))
    case Call("timestamp", args) => EmitTimestamp(d, args, n)
    case Method("timestamp", _, a) => EmitTimestamp(d, [a], n)
    case _ => Err(UnsupportedExpression)
  }

  function Emit(d: Dialect, e: Expr, n: nat): Emitted
    decreases e, 0
  {
    match TemplateOf(d, e)
    case Leaf => EmitLeaf(d, e, n)
    case Wrap(pre, x, post) => Around(pre, Emit(d, x, n), post)
    case Pair(pre, l, mid, r, post) =>
      var x := Emit(d, l, n);
      Between(pre, x, mid, Emit(d, r, NextIndex(n, x)), post)
    case Items(es) => Around([LBracket], EmitItems(d, es, n), [RBracket])
  }

  function EmitItems(d: Dialect, es: seq<Expr>, n: nat): Emitted
    decreases es, 1
  {
    if es == [] then Ok(Fragment([], []))
    else
      var x := Emit(d, es[0], n);
      if |es| == 1 then x else Between([], x, [Comma], EmitItems(d, es[1..], NextIndex(n, x)), [])
  }

  // ---------------------------------------------------------------------
  // Placeholders
  // ---------------------------------------------------------------------

  function Placeholders(ts: seq<Token>): seq<nat> {
    if ts == [] then []
    else (if ts[0].Placeholder? then [ts[0].n] else []) + Placeholders(ts[1..])
  }

  lemma {:induction false} PlaceholdersConcat(a: seq<Token>, b: seq<Token>)
    ensures Placeholders(a + b) == Placeholders(a) + Placeholders(b)
  {
    if a == [] {
      assert a + b == b;
    } else {
      assert (a + b)[1..] == a[1..] + b;
      PlaceholdersConcat(a[1..], b);
      assert Placeholders(a[..1] + a[1..]) == Placeholders(a) by {
        assert a[..1] + a[1..] == a;
      }
    }
  }

  function Numbers(n: nat, k: nat): seq<nat> {
    seq(k, i requires 0 <= i => n + i)
  }

  predicate InOrder(x: Emitted, n: nat) {
    x.Ok? ==> Placeholders(x.value.tokens) == Numbers(n, |x.value.args|)
  }

  lemma AroundInOrder(pre: seq<Token>, x: Emitted, post: seq<Token>, n: nat)
    requires InOrder(x, n) && Placeholders(pre) == [] && Placeholders(post) == []
    ensures InOrder(Around(pre, x, post), n)
  {
    if x.Ok? {
      PlaceholdersConcat(pre, x.value.tokens);
      PlaceholdersConcat(pre + x.value.tokens, post);
    }
  }

  lemma JoinInOrder(pre: seq<Token>, l: Emitted, mid: seq<Token>, r: Emitted, post: seq<Token>, n: nat)
    requires InOrder(l, n) && InOrder(r, NextIndex(n, l))
    requires Placeholders(pre) == [] && Placeholders(mid) == [] && Placeholders(post) == []
    ensures InOrder(Between(pre, l, mid, r, post), n)
  {
    if l.Ok? && r.Ok? {
      PlaceholdersBetween(pre, l.value.tokens, mid, r.value.tokens, post);
    }
  }

  lemma PlaceholdersBetween(pre: seq<Token>, a: seq<Token>, mid: seq<Token>, b: seq<Token>, post: seq<Token>)
    requires Placeholders(pre) == [] && Placeholders(mid) == [] && Placeholders(post) == []
    ensures Placeholders(pre + a + mid + b + post) == Placeholders(a) + Placeholders(b)
  {
    PlaceholdersConcat(pre, a);
    PlaceholdersConcat(pre + a, mid);
    PlaceholdersConcat(pre + a + mid, b);
    PlaceholdersConcat(pre + a + mid + b, post);
  }

  lemma NoPlaceholders(ts: seq<Token>)
    requires forall i :: 0 <= i < |ts| ==> !ts[i].Placeholder?
    ensures Placeholders(ts) == []
  {
  }

  lemma TemplateHasNoPlaceholders(d: Dialect, e: Expr)
    ensures TemplateOf(d, e).Wrap? ==> var t := TemplateOf(d, e); Placeholders(t.pre) == Placeholders(t.post) == []
    ensures TemplateOf(d, e).Pair? ==>
              var t := TemplateOf(d, e); Placeholders(t.pre) == Placeholders(t.mid) == Placeholders(t.post) == []
  {
    var t := TemplateOf(d, e);
    if t.Wrap? {
      NoPlaceholders(t.pre);
      NoPlaceholders(t.post);
    } else if t.Pair? {
      NoPlaceholders(t.pre);
      NoPlaceholders(t.mid);
      NoPlaceholders(t.post);
    }
  }

  // The placeholders of an accepted expression are numbered left to right,
  // one for each argument.
  lemma {:induction false} PlaceholdersInOrder(d: Dialect, e: Expr, n: nat)
    ensures InOrder(Emit(d, e, n), n)
    decreases e, 0
  {
    TemplateHasNoPlaceholders(d, e);
    match TemplateOf(d, e)
    case Leaf =>
    case Wrap(pre, x, post) =>
      PlaceholdersInOrder(d, x, n);
      AroundInOrder(pre, Emit(d, x, n), post, n);
    case Pair(pre, l, mid, r, post) =>
      var x := Emit(d, l, n);
      PlaceholdersInOrder(d, l, n);
      PlaceholdersInOrder(d, r, NextIndex(n, x));
      JoinInOrder(pre, x, mid, Emit(d, r, NextIndex(n, x)), post, n);
    case Items(es) =>
      ItemsInOrder(d, es, n);
      NoPlaceholders([LBracket]);
      NoPlaceholders([RBracket]);
      AroundInOrder([LBracket], EmitItems(d, es, n), [RBracket], n);
  }

  lemma {:induction false} ItemsInOrder(d: Dialect, es: seq<Expr>, n: nat)
    ensures InOrder(EmitItems(d, es, n), n)
    decreases es, 1
  {
    if es != [] {
      var x := Emit(d, es[0], n);
      PlaceholdersInOrder(d, es[0], n);
      if |es| > 1 {
        ItemsInOrder(d, es[1..], NextIndex(n, x));
        NoPlaceholders([Comma]);
        JoinInOrder([], x, [Comma], EmitItems(d, es[1..], NextIndex(n, x)), [], n);
      }
    }
  }

  // ---------------------------------------------------------------------
  // Validation and conversion
  // ---------------------------------------------------------------------

  // No method is called timestamp; CEL's checker knows none of that name.
  predicate Checked(e: Expr)
    decreases e, 1
  {
    match e
    case Not(a) => Checked(a)
    case Compare(_, l, r) => Checked(l) && Checked(r)
    case And(l, r) => Checked(l) && Checked(r)
    case Or(l, r) => Checked(l) && Checked(r)
    case In(l, r) => Checked(l) && Checked(r)
    case Method(name, target, a) => name != "timestamp" && Checked(target) && Checked(a)
    case ListExpr(es) => AllChecked(es)
    case _ => true
  }

  predicate AllChecked(es: seq<Expr>)
    decreases es, 0
  {
    es == [] || (Checked(es[0]) && AllChecked(es[1..]))
  }

  lemma LeafValidates(d: Dialect, e: Expr, n: nat)
    requires TemplateOf(d, e).Leaf? && EmitLeaf(d, e, n).Ok? && Checked(e)
    ensures ValidateFieldAccess(d.domain, e)
  {
    if e.Select? {
      MappedFieldValidates(d.domain, e.operand, e.field, e.testOnly);
    }
    if e.Call? {
      assert e.args == [e.args[0]] && ValidateAll(d.domain, []) && ValidateFieldAccess(d.domain, e.args[0]);
    }
  }

  // The validator refuses nothing that the converter accepts, so what is
  // accepted is up to the converter alone.
  lemma {:induction false} ConvertibleValidates(d: Dialect, e: Expr, n: nat)
    requires Emit(d, e, n).Ok? && Checked(e)
    ensures ValidateFieldAccess(d.domain, e)
    decreases e, 1
  {
    match TemplateOf(d, e)
    case Leaf => LeafValidates(d, e, n);
    case Wrap(_, x, _) =>
      ConvertibleValidates(d, x, n);
      if e.In? {
        MappedFieldValidates(d.domain, e.right.operand, e.right.field, e.right.testOnly);
      }
    case Pair(_, l, _, r, _) =>
      ConvertibleValidates(d, l, n);
      ConvertibleValidates(d, r, NextIndex(n, Emit(d, l, n)));
    case Items(es) => ItemsValidate(d, es, n);
  }

  lemma {:induction false} ItemsValidate(d: Dialect, es: seq<Expr>, n: nat)
    requires EmitItems(d, es, n).Ok? && AllChecked(es)
    ensures ValidateAll(d.domain, es)
    decreases es, 0
  {
    if es != [] {
      ConvertibleValidates(d, es[0], n);
      if |es| > 1 {
        ItemsValidate(d, es[1..], NextIndex(n, Emit(d, es[0], n)));
      }
    }
  }
}
