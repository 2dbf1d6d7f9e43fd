/**
 The converter object: it writes the condition's text while its argument list,
 argument counter and parameter names grow.
 */
module SqlConverter {
  import opened Prelude
  import opened Strings
  import opened CelSyntax
  import opened SqlSyntax
  import opened CelConverter

  lemma {:induction false} TextConcat(a: seq<Token>, b: seq<Token>)
    ensures Text(a + b) == Text(a) + Text(b)
  {
    if a == [] {
      assert a + b == b;
    } else {
      assert (a + b)[1..] == a[1..] + b;
      TextConcat(a[1..], b);
      assert TokenText(a[0]) + (Text(a[1..]) + Text(b)) == Text(a) + Text(b);
    }
  }

  lemma TextOfOne(t: Token)
    ensures Text([t]) == TokenText(t)
  {
    assert [t][1..] == [];
  }

  lemma TextOfTwo(t: Token, u: Token)
    ensures Text([t, u]) == TokenText(t) + TokenText(u)
  {
    TextOfOne(t);
    TextOfOne(u);
    TextConcat([t], [u]);
    assert [t] + [u] == [t, u];
  }

  lemma TextBetween(pre: seq<Token>, a: seq<Token>, mid: seq<Token>, b: seq<Token>, post: seq<Token>)
    ensures Text(pre + a + mid + b + post) == Text(pre) + Text(a) + Text(mid) + Text(b) + Text(post)
  {
    TextConcat(pre, a);
    TextConcat(pre + a, mid);
    TextConcat(pre + a + mid, b);
    TextConcat(pre + a + mid + b, post);
  }

  lemma TextAround(pre: seq<Token>, a: seq<Token>, post: seq<Token>)
    ensures Text(pre + a + post) == Text(pre) + Text(a) + Text(post)
  {
    TextConcat(pre, a);
    TextConcat(pre + a, post);
  }

  lemma TextOfHas(column: Column)
    ensures Text([FnTok(FnHas), LParen, ColumnTok(column), Comma]) == "has(" + ColumnName(column) + ", "
  {
    TextOfTwo(FnTok(FnHas), LParen);
    TextOfTwo(ColumnTok(column), Comma);
    TextConcat([FnTok(FnHas), LParen], [ColumnTok(column), Comma]);
    assert [FnTok(FnHas), LParen] + [ColumnTok(column), Comma] == [FnTok(FnHas), LParen, ColumnTok(column), Comma];
    assert "has" + "(" == "has(";
  }

  // The literal text of each template, as the converter's format strings have it.
  predicate SpelledAround(d: Dialect, e: Expr, pre: string, x: Expr, post: string) {
    var t := TemplateOf(d, e);
    t.Wrap? && t.x == x && Text(t.pre) == pre && Text(t.post) == post
  }

  predicate SpelledBetween(d: Dialect, e: Expr, pre: string, l: Expr, mid: string, r: Expr, post: string) {
    var t := TemplateOf(d, e);
    t.Pair? && t.l == l && t.r == r && Text(t.pre) == pre && Text(t.mid) == mid && Text(t.post) == post
  }

  lemma OperatorSpelling(d: Dialect, e: Expr)
    ensures e.Not? ==> SpelledAround(d, e, "NOT (", e.arg, ")")
    ensures e.Compare? ==> SpelledBetween(d, e, "", e.left, " " + Spelling(e.op) + " ", e.right, "")
    ensures e.And? ==> SpelledBetween(d, e, "(", e.left, " AND ", e.right, ")")
    ensures e.Or? ==> SpelledBetween(d, e, "(", e.left, " OR ", e.right, ")")
  {
    TextOfTwo(NotKw, LParen);
    assert "NOT " + "(" == "NOT (";
    TextOfOne(LParen);
    TextOfOne(RParen);
    TextOfOne(AndKw);
    TextOfOne(OrKw);
    if e.Compare? {
      TextOfOne(CompareTok(e.op));
    }
  }

  lemma MembershipSpelling(d: Dialect, e: Expr)
    requires e.In?
    ensures match ArrayColumn(d.domain, e.right)
      case Some(column) => SpelledAround(d, e, "has(" + ColumnName(column) + ", ", e.left, ")")
      case None => SpelledBetween(d, e, "", e.left, " IN ", e.right, "")
  {
    TextOfOne(RParen);
    TextOfOne(InKw);
    if ArrayColumn(d.domain, e.right).Some? {
      TextOfHas(ArrayColumn(d.domain, e.right).value);
    }
  }

  lemma PrefixSpelling(d: Dialect, e: Expr)
    requires e.Method? && PrefixFunction(e.name)
    ensures SpelledBetween(d, e, e.name + "(", e.target, ", ", e.arg, ")")
  {
    TextOfTwo(FnTok(PrefixFn(e.name)), LParen);
    assert FnName(PrefixFn(e.name)) == e.name;
    TextOfOne(Comma);
    TextOfOne(RParen);
  }

  lemma MethodSpelling(d: Dialect, e: Expr)
    requires e.Method?
    ensures PrefixFunction(e.name) ==> SpelledBetween(d, e, e.name + "(", e.target, ", ", e.arg, ")")
    ensures e.name == "contains" ==> SpelledBetween(d, e, "position(", e.target, ", ", e.arg, ") > 0")
  {
    if PrefixFunction(e.name) {
      PrefixSpelling(d, e);
    }
  }

  // The texts and arguments of a list's elements.
  datatype Written = Written(texts: seq<string>, args: seq<Arg>)

  type Listing = Result<Written, ConvertError>

  function Cons(x: Emitted, rest: Listing): Listing {
    if x.Err? then Err(x.error)
    else if rest.Err? then rest
    else Ok(Written([Text(x.value.tokens)] + rest.value.texts, x.value.args + rest.value.args))
  }

  // One element after another, each numbered after the arguments before it.
  function EmitEach(d: Dialect, es: seq<Expr>, n: nat): Listing {
    if es == [] then Ok(Written([], []))
    else
      var x := Emit(d, es[0], n);
      Cons(x, EmitEach(d, es[1..], NextIndex(n, x)))
  }

  // Joining the elements' texts spells the comma-separated list.
  predicate Spells(x: Emitted, each: Listing) {
    match each
    case Err(e) => x == Err(e)
    case Ok(w) => x.Ok? && x.value.args == w.args && Text(x.value.tokens) == Join(w.texts, ", ")
  }

  lemma TextSeparated(a: seq<Token>, b: seq<Token>)
    ensures Text([] + a + [Comma] + b + []) == Text(a) + ", " + Text(b)
  {
    TextOfOne(Comma);
    TextBetween([], a, [Comma], b, []);
    assert "" + Text(a) == Text(a);
  }

  lemma SpellsCons(f: Fragment, rest: Fragment, w: Written)
    requires w.texts != [] && Spells(Ok(rest), Ok(w))
    ensures Spells(Between([], Ok(f), [Comma], Ok(rest), []), Cons(Ok(f), Ok(w)))
  {
    var texts := [Text(f.tokens)] + w.texts;
    assert texts[1..] == w.texts;
    assert Join(texts, ", ") == Text(f.tokens) + ", " + Text(rest.tokens);
    TextSeparated(f.tokens, rest.tokens);
  }

  lemma {:induction false} EachIsItems(d: Dialect, es: seq<Expr>, n: nat)
    ensures Spells(EmitItems(d, es, n), EmitEach(d, es, n))
    ensures EmitEach(d, es, n).Ok? ==> |EmitEach(d, es, n).value.texts| == |es|
  {
    if es != [] {
      var x := Emit(d, es[0], n);
      if x.Ok? {
        var m := n + |x.value.args|;
        EachIsItems(d, es[1..], m);
        if |es| == 1 {
          assert EmitEach(d, es[1..], m) == Ok(Written([], []));
        } else if EmitEach(d, es[1..], m).Ok? {
          SpellsCons(x.value, EmitItems(d, es[1..], m).value, EmitEach(d, es[1..], m).value);
        }
      }
    }
  }

  // A method's answer and arguments against what the expression emits.
  predicate Emits(x: Emitted, before: seq<Arg>, after: seq<Arg>, r: Result<string, ConvertError>) {
    match x
    case Err(e) => r == Err(e) && before <= after
    case Ok(f) => r == Ok(Text(f.tokens)) && after == before + f.args
  }

  // What the elements converted so far leave to the others.
  predicate Converted(all: Listing, rest: Listing, before: seq<Arg>, args: seq<Arg>, texts: seq<string>) {
    before <= args &&
    match rest
    case Err(e) => all == rest
    case Ok(w) => all.Ok? && all.value.texts == texts + w.texts && before + all.value.args == args + w.args
  }

  lemma ConvertOne(all: Listing, x: Emitted, rest: Listing, before: seq<Arg>, args: seq<Arg>, texts: seq<string>,
                   after: seq<Arg>, text: Result<string, ConvertError>)
    requires Converted(all, Cons(x, rest), before, args, texts)
    requires Emits(x, args, after, text)
    ensures text.Err? ==> all == Err(text.error) && before <= after
    ensures text.Ok? ==> Converted(all, rest, before, after, texts + [text.value])
  {
    if x.Ok? && rest.Ok? {
      assert texts + ([text.value] + rest.value.texts) == texts + [text.value] + rest.value.texts;
      assert args + (x.value.args + rest.value.args) == after + rest.value.args;
    }
  }

  lemma ProgressOn(all: Listing, whole: Listing, x: Emitted, rest: Listing, next: Listing, before: seq<Arg>,
                   args: seq<Arg>, texts: seq<string>, after: seq<Arg>, text: Result<string, ConvertError>)
    requires Converted(all, whole, before, args, texts) && whole == Cons(x, rest) && Emits(x, args, after, text)
    requires NextIndex(|args| + 1, x) == |after| + 1 ==> next == rest
    ensures text.Err? ==> all == Err(text.error) && before <= after
    ensures text.Ok? ==> Converted(all, next, before, after, texts + [text.value])
  {
    ConvertOne(all, x, rest, before, args, texts, after, text);
  }

  // Elements before the i-th converted, with one index used per argument.
  predicate Progress(d: Dialect, es: seq<Expr>, i: nat, all: Listing, before: seq<Arg>, args: seq<Arg>, texts: seq<string>) {
    i <= |es| && Converted(all, EmitEach(d, es[i..], |args| + 1), before, args, texts)
  }

  lemma ProgressStarts(d: Dialect, es: seq<Expr>, args: seq<Arg>)
    ensures Progress(d, es, 0, EmitEach(d, es, |args| + 1), args, args, [])
  {
    assert es[0..] == es;
  }

  lemma ProgressStep(d: Dialect, es: seq<Expr>, i: nat, all: Listing, before: seq<Arg>, args: seq<Arg>,
                     texts: seq<string>, after: seq<Arg>, text: Result<string, ConvertError>)
    requires i < |es| && Progress(d, es, i, all, before, args, texts)
    requires Emits(Emit(d, es[i], |args| + 1), args, after, text)
    ensures text.Err? ==> all == Err(text.error) && before <= after
    ensures text.Ok? ==> Progress(d, es, i + 1, all, before, after, texts + [text.value])
  {
    assert es[i..][0] == es[i] && es[i..][1..] == es[i + 1..];
    HeadConverted(d, es[i..], es[i], es[i + 1..], all, before, args, texts, after, text);
  }

  lemma HeadConverted(d: Dialect, es: seq<Expr>, e: Expr, more: seq<Expr>, all: Listing, before: seq<Arg>, args: seq<Arg>,
                      texts: seq<string>, after: seq<Arg>, text: Result<string, ConvertError>)
    requires es != [] && e == es[0] && more == es[1..]
    requires Converted(all, EmitEach(d, es, |args| + 1), before, args, texts)
    requires Emits(Emit(d, e, |args| + 1), args, after, text)
    ensures text.Err? ==> all == Err(text.error) && before <= after
    ensures text.Ok? ==> Converted(all, EmitEach(d, more, |after| + 1), before, after, texts + [text.value])
  {
    var x := Emit(d, e, |args| + 1);
    ProgressOn(all, EmitEach(d, es, |args| + 1), x, EmitEach(d, more, NextIndex(|args| + 1, x)),
               EmitEach(d, more, |after| + 1), before, args, texts, after, text);
  }

  lemma ProgressEnds(d: Dialect, es: seq<Expr>, all: Listing, before: seq<Arg>, args: seq<Arg>, texts: seq<string>)
    requires all == EmitEach(d, es, |before| + 1) && Progress(d, es, |es|, all, before, args, texts)
    ensures Emits(Emit(d, ListExpr(es), |before| + 1), before, args, Ok("[" + Join(texts, ", ") + "]"))
  {
    EachIsItems(d, es, |before| + 1);
    ListEmits(EmitItems(d, es, |before| + 1), all, before, args, texts);
  }

  lemma ListError(d: Dialect, es: seq<Expr>, n: nat)
    ensures EmitEach(d, es, n).Err? ==> Emit(d, ListExpr(es), n) == Err(EmitEach(d, es, n).error)
  {
    EachIsItems(d, es, n);
  }

  lemma ListEmits(items: Emitted, all: Listing, before: seq<Arg>, args: seq<Arg>, texts: seq<string>)
    requires Spells(items, all) && Converted(all, Ok(Written([], [])), before, args, texts)
    ensures Emits(Around([LBracket], items, [RBracket]), before, args, Ok("[" + Join(texts, ", ") + "]"))
  {
    assert texts + [] == texts && args + [] == args;
    TextAround([LBracket], items.value.tokens, [RBracket]);
    TextOfOne(LBracket);
    TextOfOne(RBracket);
  }

  // Writing text around one operand, and around and between two.
  lemma EmitsAround(t: Template, x: Emitted, before: seq<Arg>, after: seq<Arg>, text: Result<string, ConvertError>)
    requires t.Wrap? && Emits(x, before, after, text)
    ensures Emits(Around(t.pre, x, t.post), before, after,
                  if text.Err? then text else Ok(Text(t.pre) + text.value + Text(t.post)))
  {
    if x.Ok? {
      TextAround(t.pre, x.value.tokens, t.post);
    }
  }

  lemma BetweenOk(pre: seq<Token>, f: Fragment, mid: seq<Token>, g: Fragment, post: seq<Token>) returns (whole: Fragment)
    ensures Between(pre, Ok(f), mid, Ok(g), post) == Ok(whole) && whole.args == f.args + g.args
    ensures Text(whole.tokens) == Text(pre) + Text(f.tokens) + Text(mid) + Text(g.tokens) + Text(post)
  {
    whole := Fragment(pre + f.tokens + mid + g.tokens + post, f.args + g.args);
    TextBetween(pre, f.tokens, mid, g.tokens, post);
  }

  lemma EmitsBetween(t: Template, x: Emitted, y: Emitted, before: seq<Arg>, middle: seq<Arg>, after: seq<Arg>,
                     l: Result<string, ConvertError>, r: Result<string, ConvertError>)
    requires t.Pair? && Emits(x, before, middle, l) && x.Ok? && Emits(y, middle, after, r)
    ensures Emits(Between(t.pre, x, t.mid, y, t.post), before, after,
                  if r.Err? then r else Ok(Text(t.pre) + l.value + Text(t.mid) + r.value + Text(t.post)))
  {
    if y.Ok? {
      var whole := BetweenOk(t.pre, x.value, t.mid, y.value, t.post);
      assert before + (x.value.args + y.value.args) == before + x.value.args + y.value.args;
    }
  }

  function ParamNames(k: nat): map<nat, string> {
    if k == 0 then map[] else ParamNames(k - 1)[k := "arg" + Decimal(k)]
  }

  class BaseSQLConverter {
    const dialect: Dialect
    var args: seq<Arg>
    var argIndex: nat
    var paramName: map<nat, string>

    ghost predicate Valid()
      reads this
    {
      argIndex == |args| + 1 &&
      paramName == ParamNames(|args|)
    }

    constructor (dialect: Dialect)
      ensures Valid() && args == [] && this.dialect == dialect
    {
      this.dialect := dialect;
      args, argIndex, paramName := [], 1, map[];
    }

    method AddArg(value: Arg) returns (placeholder: string)
      requires Valid()
      modifies this
      ensures Valid() && args == old(args) + [value]
      ensures placeholder == Text([Placeholder(old(argIndex))])
    {
      args := args + [value];
      var name := "arg" + Decimal(argIndex);
      paramName := paramName[argIndex := name];
      argIndex := argIndex + 1;
      placeholder := "{" + name + "}";
      TextOfOne(Placeholder(old(argIndex)));
    }

    method ConvertConst(c: Constant) returns (r: Result<string, ConvertError>)
      requires Valid()
      modifies this
      ensures Valid() && Emits(EmitConst(c, old(argIndex)), old(args), args, r)
    {
      match c {
        case StringConst(s) => var p := AddArg(ArgString(s)); r := Ok(p);
        case IntConst(i) => var p := AddArg(ArgInt(i)); r := Ok(p);
        case UintConst(u) => var p := AddArg(ArgUint(u)); r := Ok(p);
        case DoubleConst(v) => var p := AddArg(ArgDouble(v)); r := Ok(p);
        case BoolConst(b) =>
          TextOfOne(Number(if b then 1 else 0));
          r := Ok(if b then "1" else "0");
        case OtherConst => r := Err(UnsupportedExpression);
      }
    }

    method ConvertTimestamp(call: seq<Expr>) returns (r: Result<string, ConvertError>)
      requires Valid()
      modifies this
      ensures Valid() && Emits(EmitTimestamp(dialect, call, old(argIndex)), old(args), args, r)
    {
      if |call| == 1 && call[0].Const? && call[0].value.StringConst? && call[0].value.s != "" {
        match dialect.parseTime(call[0].value.s) {
          case None => r := Err(InvalidTimestamp);
          case Some(t) => var p := AddArg(ArgTime(t)); r := Ok(p);
        }
      } else {
        r := Err(UnsupportedExpression);
      }
    }

    method ConvertExpr(e: Expr) returns (r: Result<string, ConvertError>)
      requires Valid()
      modifies this
      ensures Valid() && Emits(Emit(dialect, e, old(argIndex)), old(args), args, r)
      decreases e, 2
    {
      match e {
        case Const(c) => r := ConvertConst(c);
        case Ident(name) => r := NameOf(MapIdentExpr(dialect.domain, name));
        case Select(operand, field, _) => r := NameOf(MapSelectExpr(dialect.domain, operand, field));
        case ListExpr(elements) => r := ConvertList(e, elements);
        case Other(_) => r := Err(UnsupportedExpression);
        case _ => r := ConvertCall(e);
      }
    }

    static method NameOf(column: Result<Column, ConvertError>) returns (r: Result<string, ConvertError>)
      ensures Emits(EmitColumn(column), [], [], r)
    {
      match column {
        case Ok(c) =>
          TextOfOne(ColumnTok(c));
          r := Ok(ColumnName(c));
        case Err(e) => r := Err(e);
      }
    }

    method ConvertCall(e: Expr) returns (r: Result<string, ConvertError>)
      requires Valid()
      requires !e.Const? && !e.Ident? && !e.Select? && !e.ListExpr? && !e.Other?
      modifies this
      ensures Valid() && Emits(Emit(dialect, e, old(argIndex)), old(args), args, r)
      decreases e, 1
    {
      OperatorSpelling(dialect, e);
      match e {
        case Not(a) => r := ConvertAround(e, "NOT (", a, ")");
        case Compare(op, left, right) => r := ConvertBetween(e, "", left, " " + Spelling(op) + " ", right, "");
        case And(left, right) => r := ConvertBetween(e, "(", left, " AND ", right, ")");
        case Or(left, right) => r := ConvertBetween(e, "(", left, " OR ", right, ")");
        case In(left, right) =>
          MembershipSpelling(dialect, e);
          match ArrayColumn(dialect.domain, right) {
            case Some(column) => r := ConvertAround(e, "has(" + ColumnName(column) + ", ", left, ")");
            case None => r := ConvertBetween(e, "", left, " IN ", right, "");
          }
        case Method(name, target, a) =>
          MethodSpelling(dialect, e);
          if name == "startsWith" || name == "endsWith" {
            r := ConvertBetween(e, name + "(", target, ", ", a, ")");
          } else if name == "contains" {
            r := ConvertBetween(e, "position(", target, ", ", a, ") > 0");
          } else if name == "timestamp" {
            r := ConvertTimestamp([a]);
          } else {
            r := Err(UnsupportedExpression);
          }
        case Call(name, call) =>
          if name == "timestamp" {
            r := ConvertTimestamp(call);
          } else {
            r := Err(UnsupportedExpression);
          }
      }
    }

    method ConvertAround(ghost e: Expr, pre: string, x: Expr, post: string) returns (r: Result<string, ConvertError>)
      requires Valid() && SpelledAround(dialect, e, pre, x, post)
      modifies this
      ensures Valid() && Emits(Emit(dialect, e, old(argIndex)), old(args), args, r)
      decreases e, 0
    {
      var text := ConvertExpr(x);
      EmitsAround(TemplateOf(dialect, e), Emit(dialect, x, old(argIndex)), old(args), args, text);
      if text.Err? {
        return text;
      }
      r := Ok(pre + text.value + post);
    }

    method ConvertBetween(ghost e: Expr, pre: string, left: Expr, mid: string, right: Expr, post: string)
      returns (r: Result<string, ConvertError>)
      requires Valid() && SpelledBetween(dialect, e, pre, left, mid, right, post)
      modifies this
      ensures Valid() && Emits(Emit(dialect, e, old(argIndex)), old(args), args, r)
      decreases e, 0
    {
      ghost var x := Emit(dialect, left, argIndex);
      var l := ConvertExpr(left);
      if l.Err? {
        return l;
      }
      ghost var middle, y := args, Emit(dialect, right, argIndex);
      assert argIndex == NextIndex(old(argIndex), x);
      var q := ConvertExpr(right);
      EmitsBetween(TemplateOf(dialect, e), x, y, old(args), middle, args, l, q);
      if q.Err? {
        return q;
      }
      r := Ok(pre + l.value + mid + q.value + post);
    }

    method ConvertList(ghost e: Expr, elements: seq<Expr>) returns (r: Result<string, ConvertError>)
      requires Valid() && e == ListExpr(elements)
      modifies this
      ensures Valid() && Emits(Emit(dialect, e, old(argIndex)), old(args), args, r)
      decreases e, 1
    {
      ghost var all := EmitEach(dialect, elements, argIndex);
      ProgressStarts(dialect, elements, args);
      ListError(dialect, elements, argIndex);
      var texts := [];
      for i := 0 to |elements|
        invariant Valid() && Progress(dialect, elements, i, all, old(args), args, texts)
      {
        var text := ConvertElement(e, elements, i, all, old(args), texts);
        if text.Err? {
          return text;
        }
        texts := texts + [text.value];
      }
      ProgressEnds(dialect, elements, all, old(args), args, texts);
      r := Ok("[" + Join(texts, ", ") + "]");
    }

    method ConvertElement(ghost e: Expr, elements: seq<Expr>, i: nat, ghost all: Listing, ghost before: seq<Arg>,
                          ghost texts: seq<string>)
      returns (text: Result<string, ConvertError>)
      requires Valid() && e == ListExpr(elements) && i < |elements|
      requires Progress(dialect, elements, i, all, before, args, texts)
      modifies this
      ensures Valid()
      ensures text.Err? ==> all == Err(text.error) && before <= args
      ensures text.Ok? ==> Progress(dialect, elements, i + 1, all, before, args, texts + [text.value])
      decreases e, 0
    {
      assert elements[i] < e;
      text := ConvertExpr(elements[i]);
      ProgressStep(dialect, elements, i, all, before, old(args), texts, args, text);
    }
  }
}
