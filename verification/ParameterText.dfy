/**
 From numbered placeholders to positional ones: the text a filter contributes
 to a query has one ? for each of its arguments, in order.
 */
module ParameterText {
  import opened Prelude
  import opened CelSyntax
  import opened SqlSyntax
  import opened CelConverter
  import opened SqlConverter

  // strings.ReplaceAll, for a non-empty old string.
  function ReplaceAll(s: string, old_: string, new_: string): string
    requires old_ != []
    decreases |s|
  {
    if s == [] then []
    else if old_ <= s then new_ + ReplaceAll(s[|old_|..], old_, new_)
    else [s[0]] + ReplaceAll(s[1..], old_, new_)
  }

  // ---------------------------------------------------------------------
  // Decimal spellings
  // ---------------------------------------------------------------------

  predicate Digits(s: string) {
    forall i :: 0 <= i < |s| ==> '0' <= s[i] <= '9'
  }

  lemma {:induction false} DecimalDigits(n: nat)
    ensures Digits(Decimal(n)) && Decimal(n) != []
  {
    if n >= 10 {
      DecimalDigits(n / 10);
    }
  }

  lemma DigitInjective(a: nat, b: nat)
    requires a < 10 && b < 10 && Digit(a) == Digit(b)
    ensures a == b
  {
    assert Digit(a) as int == '0' as int + a;
    assert Digit(b) as int == '0' as int + b;
  }

  lemma {:induction false} DecimalInjective(a: nat, b: nat)
    requires Decimal(a) == Decimal(b)
    ensures a == b
  {
    var s := Decimal(a);
    if a < 10 && b < 10 {
      DigitInjective(a, b);
    } else if a < 10 {
      DecimalDigits(b / 10);
    } else if b < 10 {
      DecimalDigits(a / 10);
    } else {
      var k := |s| - 1;
      assert Decimal(a / 10) == s[..k] && Digit(a % 10) == s[k];
      assert Decimal(b / 10) == s[..k] && Digit(b % 10) == s[k];
      DecimalInjective(a / 10, b / 10);
      DigitInjective(a % 10, b % 10);
    }
  }

  function ArgName(i: nat): string {
    "{arg" + Decimal(i) + "}"
  }

  lemma BraceEnds(a: string, b: string, rest: string)
    requires Digits(a) && Digits(b) && a + "}" <= b + "}" + rest
    ensures a == b
  {
    var t := b + "}" + rest;
    assert forall i :: 0 <= i < |a| ==> t[i] == (a + "}")[i] == a[i];
    assert t[|a|] == (a + "}")[|a|] == '}';
    assert forall i :: 0 <= i < |b| ==> t[i] == b[i];
    assert t[|b|] == '}';
  }

  // One parameter's name is never the start of another's text.
  lemma NamesDiffer(i: nat, j: nat, rest: string)
    requires ArgName(i) <= ArgName(j) + rest
    ensures i == j
  {
    DecimalDigits(i);
    DecimalDigits(j);
    var a, b := Decimal(i), Decimal(j);
    assert ArgName(i)[4..] == a + "}";
    assert (ArgName(j) + rest)[4..] == b + "}" + rest;
    BraceEnds(a, b, rest);
    DecimalInjective(i, j);
  }

  // ---------------------------------------------------------------------
  // Replacing one parameter
  // ---------------------------------------------------------------------

  predicate NoBrace(s: string) {
    forall i :: 0 <= i < |s| ==> s[i] != '{'
  }

  lemma {:induction false} SkipText(u: string, rest: string, old_: string, new_: string)
    requires NoBrace(u) && old_ != [] && old_[0] == '{'
    ensures ReplaceAll(u + rest, old_, new_) == u + ReplaceAll(rest, old_, new_)
  {
    if u == [] {
      assert u + rest == rest;
    } else {
      SkipText(u[1..], rest, old_, new_);
      assert (u + rest)[0] == u[0] && (u + rest)[1..] == u[1..] + rest;
      assert [u[0]] + u[1..] == u;
    }
  }

  lemma MatchText(old_: string, rest: string, new_: string)
    requires old_ != []
    ensures ReplaceAll(old_ + rest, old_, new_) == new_ + ReplaceAll(rest, old_, new_)
  {
    assert (old_ + rest)[|old_|..] == rest;
  }

  lemma SkipName(i: nat, j: nat, rest: string)
    requires i != j
    ensures ReplaceAll(ArgName(j) + rest, ArgName(i), "?") == ArgName(j) + ReplaceAll(rest, ArgName(i), "?")
  {
    var t, tail := ArgName(j) + rest, "arg" + Decimal(j) + "}";
    if ArgName(i) <= t {
      NamesDiffer(i, j, rest);
    }
    assert "{" + tail == ArgName(j);
    assert t[0] == '{' && t[1..] == tail + rest;
    DecimalDigits(j);
    SkipText(tail, rest, ArgName(i), "?");
    assert ["{"[0]] + (tail + ReplaceAll(rest, ArgName(i), "?")) == ArgName(j) + ReplaceAll(rest, ArgName(i), "?");
  }

  function MarkIn(t: Token, lo: nat, hi: nat): Token {
    if t.Placeholder? && lo <= t.n < hi then Mark else t
  }

  // The tokens with placeholders numbered from lo up to hi made positional.
  function Marked(ts: seq<Token>, lo: nat, hi: nat): (r: seq<Token>)
    ensures |r| == |ts|
  {
    seq(|ts|, i requires 0 <= i < |ts| => MarkIn(ts[i], lo, hi))
  }

  predicate Plain(t: Token) {
    t.Placeholder? || NoBrace(TokenText(t))
  }

  lemma {:induction false} ReplaceOne(ts: seq<Token>, i: nat)
    requires forall k :: 0 <= k < |ts| ==> Plain(ts[k])
    ensures ReplaceAll(Text(ts), ArgName(i), "?") == Text(Marked(ts, i, i + 1))
  {
    if ts != [] {
      var rest := Text(ts[1..]);
      ReplaceOne(ts[1..], i);
      var ms := Marked(ts, i, i + 1);
      assert ms[1..] == Marked(ts[1..], i, i + 1);
      if ts[0].Placeholder? && ts[0].n == i {
        MatchText(ArgName(i), rest, "?");
      } else if ts[0].Placeholder? {
        SkipName(i, ts[0].n, rest);
      } else {
        SkipText(TokenText(ts[0]), rest, ArgName(i), "?");
      }
    }
  }

  // The query builders' loop over a filter's arguments.
  method Positional(where_: string, count: nat, ghost ts: seq<Token>) returns (processed: string)
    requires where_ == Text(ts) && forall k :: 0 <= k < |ts| ==> Plain(ts[k])
    ensures processed == Text(Marked(ts, 1, count + 1))
  {
    processed := where_;
    assert Marked(ts, 1, 1) == ts;
    for i := 0 to count
      invariant processed == Text(Marked(ts, 1, i + 1))
    {
      var oldParam := "{arg" + Decimal(i + 1) + "}";
      ghost var ms := Marked(ts, 1, i + 1);
      MarkIsPlain();
      ReplaceOne(ms, i + 1);
      assert Marked(ms, i + 1, i + 2) == Marked(ts, 1, i + 2);
      processed := ReplaceAll(processed, oldParam, "?");
    }
  }

  lemma MarkIsPlain()
    ensures Plain(Mark)
  {
  }

  // ---------------------------------------------------------------------
  // A converted filter's tokens
  // ---------------------------------------------------------------------

  ghost predicate AllPlain(ts: seq<Token>) {
    forall k :: 0 <= k < |ts| ==> Plain(ts[k]) && ts[k] != Mark
  }

  predicate ResourceColumn(c: Column) {
    c.ApiGroup? || c.ResourceKind? || c.ResourceName? || c.ResourceNamespace? || c.ResourceUID? || c.ResourceType? ||
    c.ActorName? || c.ActorType? || c.ActorUID? || c.SourcePlaneType? || c.SourceCluster? || c.SourceRegion? || c.SourceCity?
  }

  lemma ResourceColumnNoBrace(c: Column)
    requires ResourceColumn(c)
    ensures NoBrace(ColumnName(c))
  {
  }

  lemma OtherColumnNoBrace(c: Column)
    requires !ResourceColumn(c)
    ensures NoBrace(ColumnName(c))
  {
  }

  lemma ColumnHasNoBrace(c: Column)
    ensures NoBrace(ColumnName(c))
  {
    if ResourceColumn(c) {
      ResourceColumnNoBrace(c);
    } else {
      OtherColumnNoBrace(c);
    }
  }

  lemma NumberHasNoBrace(v: nat)
    ensures NoBrace(Decimal(v))
  {
    DecimalDigits(v);
  }

  lemma LeafIsPlain(d: Dialect, e: Expr, n: nat)
    requires EmitLeaf(d, e, n).Ok?
    ensures AllPlain(EmitLeaf(d, e, n).value.tokens)
  {
    var ts := EmitLeaf(d, e, n).value.tokens;
    if ts[0].ColumnTok? {
      ColumnHasNoBrace(ts[0].column);
    } else if ts[0].Number? {
      NumberHasNoBrace(ts[0].v);
    }
  }

  lemma PunctuationIsPlain(t: Token)
    requires t.LParen? || t.RParen? || t.LBracket? || t.RBracket? || t.Comma? || t.AndKw? || t.OrKw? || t.NotKw? || t.InKw?
    ensures Plain(t) && t != Mark
  {
  }

  lemma CompareIsPlain(op: CompareOp)
    ensures Plain(CompareTok(op))
  {
  }

  lemma FunctionIsPlain(fn: Fn)
    ensures Plain(FnTok(fn))
  {
  }

  lemma TemplateIsPlain(d: Dialect, e: Expr)
    ensures TemplateOf(d, e).Wrap? ==> AllPlain(TemplateOf(d, e).pre) && AllPlain(TemplateOf(d, e).post)
    ensures TemplateOf(d, e).Pair? ==>
              AllPlain(TemplateOf(d, e).pre) && AllPlain(TemplateOf(d, e).mid) && AllPlain(TemplateOf(d, e).post)
  {
    PunctuationIsPlain(LParen);
    PunctuationIsPlain(RParen);
    PunctuationIsPlain(Comma);
    PunctuationIsPlain(AndKw);
    PunctuationIsPlain(OrKw);
    PunctuationIsPlain(NotKw);
    PunctuationIsPlain(InKw);
    var t := TemplateOf(d, e);
    if e.Compare? {
      CompareIsPlain(e.op);
    } else if t.Wrap? && e.In? {
      FunctionIsPlain(FnHas);
      ColumnHasNoBrace(ArrayColumn(d.domain, e.right).value);
    } else if t.Pair? && e.Method? {
      FunctionIsPlain(if PrefixFunction(e.name) then PrefixFn(e.name) else FnPosition);
      CompareIsPlain(Gt);
      NumberHasNoBrace(0);
    }
  }

  lemma AroundIsPlain(pre: seq<Token>, x: Emitted, post: seq<Token>)
    requires AllPlain(pre) && AllPlain(post) && (x.Ok? ==> AllPlain(x.value.tokens))
    ensures Around(pre, x, post).Ok? ==> AllPlain(Around(pre, x, post).value.tokens)
  {
  }

  lemma BetweenIsPlain(pre: seq<Token>, x: Emitted, mid: seq<Token>, y: Emitted, post: seq<Token>)
    requires AllPlain(pre) && AllPlain(mid) && AllPlain(post)
    requires x.Ok? && y.Ok? ==> AllPlain(x.value.tokens) && AllPlain(y.value.tokens)
    ensures Between(pre, x, mid, y, post).Ok? ==> AllPlain(Between(pre, x, mid, y, post).value.tokens)
  {
  }

  lemma {:induction false} EmitIsPlain(d: Dialect, e: Expr, n: nat)
    requires Emit(d, e, n).Ok?
    ensures AllPlain(Emit(d, e, n).value.tokens)
    decreases e, 0
  {
    TemplateIsPlain(d, e);
    match TemplateOf(d, e)
    case Leaf => LeafIsPlain(d, e, n);
    case Wrap(pre, x, post) =>
      EmitIsPlain(d, x, n);
      AroundIsPlain(pre, Emit(d, x, n), post);
    case Pair(pre, l, mid, r, post) =>
      var x := Emit(d, l, n);
      EmitIsPlain(d, l, n);
      EmitIsPlain(d, r, NextIndex(n, x));
      BetweenIsPlain(pre, x, mid, Emit(d, r, NextIndex(n, x)), post);
    case Items(es) => ItemsArePlain(d, es, n);
  }

  lemma {:induction false} ItemsArePlain(d: Dialect, es: seq<Expr>, n: nat)
    requires EmitItems(d, es, n).Ok?
    ensures AllPlain(EmitItems(d, es, n).value.tokens)
    decreases es, 1
  {
    if es != [] {
      EmitIsPlain(d, es[0], n);
      if |es| > 1 {
        ItemsArePlain(d, es[1..], NextIndex(n, Emit(d, es[0], n)));
      }
    }
  }
}
