/**
 The texts that are sent to ClickHouse lex back to the tokens that were
 written: converted filters, printed conditions, and conditions joined by AND.
 */
module TextReading {
  import opened Prelude
  import opened CelSyntax
  import opened SqlSyntax
  import opened SqlLexing
  import opened CelConverter
  import opened FilterParsing
  import opened FilterMeaning
  import opened SqlPrinting
  import opened ConditionLists

  // ---------------------------------------------------------------------
  // Putting separated tokens together
  // ---------------------------------------------------------------------

  // Nothing open at the end, or nothing that opens at the start.
  predicate Shut(ts: seq<Token>) {
    ts == [] || !Open(ts[|ts| - 1])
  }

  predicate StartsShut(ts: seq<Token>) {
    ts == [] || !Opens(ts[0])
  }

  lemma SeparatedConcat(a: seq<Token>, b: seq<Token>)
    requires Separated(a) && Separated(b) && (Shut(a) || StartsShut(b))
    ensures Separated(a + b)
  {
    var ts := a + b;
    forall i | 0 <= i < |ts| - 1 ensures Apart(ts[i], ts[i + 1]) {
      if i + 1 < |a| {
        assert Apart(a[i], a[i + 1]);
      } else if i >= |a| {
        assert Apart(b[i - |a|], b[i + 1 - |a|]);
      }
    }
  }

  // Text that may stand around and between operands.
  predicate Fits(ts: seq<Token>) {
    Separated(ts) && Shut(ts) && StartsShut(ts)
  }

  lemma SeparatedAround(pre: seq<Token>, a: seq<Token>, post: seq<Token>)
    requires Separated(pre) && Shut(pre) && Separated(a) && Separated(post) && StartsShut(post)
    ensures Separated(pre + a + post)
  {
    SeparatedConcat(pre, a);
    SeparatedConcat(pre + a, post);
  }

  lemma SeparatedBetween(pre: seq<Token>, a: seq<Token>, mid: seq<Token>, b: seq<Token>, post: seq<Token>)
    requires Separated(pre) && Shut(pre) && Separated(a) && Fits(mid) && mid != [] && Separated(b)
    requires Separated(post) && StartsShut(post)
    ensures Separated(pre + a + mid + b + post)
  {
    SeparatedAround(pre, a, mid);
    assert (pre + a + mid)[|pre + a + mid| - 1] == mid[|mid| - 1];
    SeparatedConcat(pre + a + mid, b);
    SeparatedConcat(pre + a + mid + b, post);
  }

  // ---------------------------------------------------------------------
  // Converted filters
  // ---------------------------------------------------------------------

  predicate TemplateFits(t: Template) {
    match t
    case Wrap(pre, _, post) =>
      Separated(pre) && Shut(pre) && Separated(post) && StartsShut(post) && NoMark(pre) && NoMark(post)
    case Pair(pre, _, mid, _, post) =>
      && Separated(pre) && Shut(pre) && Fits(mid) && mid != [] && Separated(post) && StartsShut(post)
      && NoMark(pre) && NoMark(mid) && NoMark(post)
    case _ => true
  }

  lemma OperatorSeparates(d: Dialect, e: Expr)
    requires e.Not? || e.Compare? || e.And? || e.Or?
    ensures TemplateFits(TemplateOf(d, e))
  {
  }

  lemma MembershipSeparates(d: Dialect, e: Expr)
    requires e.In?
    ensures TemplateFits(TemplateOf(d, e))
  {
  }

  lemma MethodSeparates(d: Dialect, e: Expr)
    requires e.Method?
    ensures TemplateFits(TemplateOf(d, e))
  {
  }

  lemma TemplateSeparates(d: Dialect, e: Expr)
    ensures TemplateFits(TemplateOf(d, e))
  {
    if e.In? {
      MembershipSeparates(d, e);
    } else if e.Method? {
      MethodSeparates(d, e);
    } else if e.Not? || e.Compare? || e.And? || e.Or? {
      OperatorSeparates(d, e);
    }
  }

  predicate NoMark(ts: seq<Token>) {
    forall i :: 0 <= i < |ts| ==> !ts[i].Mark?
  }

  predicate Lexes(x: Emitted) {
    x.Ok? ==> Separated(x.value.tokens) && NoMark(x.value.tokens)
  }

  lemma WrapLexes(t: Template, x: Emitted)
    requires t.Wrap? && TemplateFits(t) && Lexes(x)
    ensures Lexes(Around(t.pre, x, t.post))
  {
    if x.Ok? {
      SeparatedAround(t.pre, x.value.tokens, t.post);
    }
  }

  lemma PairLexes(t: Template, x: Emitted, y: Emitted)
    requires t.Pair? && TemplateFits(t) && Lexes(x) && Lexes(y)
    ensures Lexes(Between(t.pre, x, t.mid, y, t.post))
  {
    if x.Ok? && y.Ok? {
      SeparatedBetween(t.pre, x.value.tokens, t.mid, y.value.tokens, t.post);
    }
  }

  lemma LeafLexes(d: Dialect, e: Expr, n: nat)
    ensures Lexes(EmitLeaf(d, e, n))
  {
  }

  lemma {:induction false} EmitSeparated(d: Dialect, e: Expr, n: nat)
    ensures Lexes(Emit(d, e, n))
    decreases e, 0
  {
    var t := TemplateOf(d, e);
    TemplateSeparates(d, e);
    match t
    case Leaf => LeafLexes(d, e, n);
    case Wrap(_, x, _) =>
      EmitSeparated(d, x, n);
      WrapLexes(t, Emit(d, x, n));
    case Pair(_, l, _, r, _) =>
      var x := Emit(d, l, n);
      EmitSeparated(d, l, n);
      EmitSeparated(d, r, NextIndex(n, x));
      PairLexes(t, x, Emit(d, r, NextIndex(n, x)));
    case Items(es) =>
      ItemsSeparated(d, es, n);
      WrapLexes(Wrap([LBracket], e, [RBracket]), EmitItems(d, es, n));
  }

  lemma {:induction false} ItemsSeparated(d: Dialect, es: seq<Expr>, n: nat)
    ensures Lexes(EmitItems(d, es, n))
    decreases es, 1
  {
    if es != [] {
      var x := Emit(d, es[0], n);
      EmitSeparated(d, es[0], n);
      if |es| > 1 {
        var y := EmitItems(d, es[1..], NextIndex(n, x));
        ItemsSeparated(d, es[1..], NextIndex(n, x));
        PairLexes(Pair([], es[0], [Comma], es[0], []), x, y);
      }
    }
  }

  // What the converter writes, read as text, gives back the intended tree
  // exactly for safe expressions.
  lemma TextReadsAsIntended(d: Dialect, e: Expr, n: nat)
    requires Emit(d, e, n).Ok?
    ensures Lex(Text(Tokens(d, e, n))) == Some(Tokens(d, e, n))
    ensures Parse(Lex(Text(Tokens(d, e, n))).value) == Got(Intended(d, e, n), []) <==> Safe(d, e)
  {
    EmitSeparated(d, e, n);
    LexText(Tokens(d, e, n));
    ParsesAsIntended(d, e, n);
  }

  // ---------------------------------------------------------------------
  // Printed conditions
  // ---------------------------------------------------------------------

  predicate QuoteFree(t: Sql) {
    match t
    case Lit(s) => forall i :: 0 <= i < |s| ==> s[i] != '\''
    case Func(_, args) => forall i :: 0 <= i < |args| ==> QuoteFree(args[i])
    case Cmp(_, l, r) => QuoteFree(l) && QuoteFree(r)
    case Conj(l, r) => QuoteFree(l) && QuoteFree(r)
    case Disj(l, r) => QuoteFree(l) && QuoteFree(r)
    case _ => true
  }

  lemma {:induction false} TermSeparated(t: Sql)
    requires IsTerm(t) && QuoteFree(t)
    ensures Separated(PrintTerm(t))
  {
    if t.Func? {
      var args := t.args;
      TermSeparated(args[0]);
      if |args| == 1 {
        OneSeparated(t.fn, PrintTerm(args[0]));
      } else {
        TermSeparated(args[1]);
        TwoSeparated(t.fn, PrintTerm(args[0]), PrintTerm(args[1]));
      }
    }
  }

  lemma OneSeparated(fn: Fn, a: seq<Token>)
    requires Separated(a)
    ensures Separated([FnTok(fn), LParen] + a + [] + [RParen])
  {
    SeparatedAround([FnTok(fn), LParen], a, [RParen]);
    assert [FnTok(fn), LParen] + a + [] == [FnTok(fn), LParen] + a;
  }

  lemma TwoSeparated(fn: Fn, a: seq<Token>, b: seq<Token>)
    requires Separated(a) && Separated(b)
    ensures Separated([FnTok(fn), LParen] + a + ([Comma] + b) + [RParen])
  {
    SeparatedBetween([FnTok(fn), LParen], a, [Comma], b, [RParen]);
    assert [FnTok(fn), LParen] + a + ([Comma] + b) == [FnTok(fn), LParen] + a + [Comma] + b;
  }

  lemma JoinedSeparated(a: seq<Token>, op: Token, b: seq<Token>)
    requires Separated(a) && Separated(b) && !Open(op) && !Opens(op) && Spellable(op)
    ensures Separated(a + [op] + b)
  {
    SeparatedBetween([], a, [op], b, []);
    assert [] + a + [op] + b + [] == a + [op] + b;
  }

  lemma {:induction false} PrintSeparated(t: Sql)
    requires IsCondition(t) && QuoteFree(t)
    ensures Separated(Print(t))
    decreases t, 1
  {
    match t
    case Cmp(op, l, r) =>
      TermSeparated(l);
      TermSeparated(r);
      JoinedSeparated(PrintTerm(l), CompareTok(op), PrintTerm(r));
    case Conj(_, _) =>
      ChainSeparated(t);
      SeparatedAround([LParen], PrintAnd(t), [RParen]);
    case Disj(_, _) =>
      ChainSeparated(t);
      SeparatedAround([LParen], PrintOr(t), [RParen]);
  }

  lemma {:induction false} ChainSeparated(t: Sql)
    requires IsCondition(t) && QuoteFree(t)
    ensures t.Conj? ==> Separated(PrintAnd(t))
    ensures t.Disj? ==> Separated(PrintOr(t))
    decreases t, 0
  {
    if t.Conj? {
      PrintSeparated(t.r);
      PrintSeparated(t.l);
      ChainSeparated(t.l);
      JoinedSeparated(PrintAnd(t.l), AndKw, Print(t.r));
    } else if t.Disj? {
      PrintSeparated(t.r);
      PrintSeparated(t.l);
      ChainSeparated(t.l);
      JoinedSeparated(PrintOr(t.l), OrKw, Print(t.r));
    }
  }

  // ---------------------------------------------------------------------
  // Clauses with positional parameters
  // ---------------------------------------------------------------------

  lemma {:induction false} ClauseSeparated(ps: seq<Part>)
    requires forall i :: 0 <= i < |ps| ==> Separated(ps[i].tokens)
    ensures Separated(Clause(ps))
  {
    if |ps| > 1 {
      ClauseSeparated(ps[1..]);
      JoinedSeparated(ps[0].tokens, AndKw, Clause(ps[1..]));
    }
  }

  lemma BlankedSeparated(ts: seq<Token>)
    requires Separated(ts)
    ensures Separated(Blanked(ts))
  {
    forall i | 0 <= i < |ts| - 1 ensures Apart(Blanked(ts)[i], Blanked(ts)[i + 1]) {
      assert Apart(ts[i], ts[i + 1]);
    }
  }

  // What ClickHouse makes of a text and its positional arguments.
  function ReadText(text: string): Parsed {
    match Lex(text)
    case None => Fail
    case Some(ts) => Parse(Bind(ts, 1))
  }

  lemma ReadsBack(ts: seq<Token>, count: nat)
    requires Separated(ts) && Numbered(ts, 1, count)
    ensures ReadText(Text(Blanked(ts))) == Parse(ts)
  {
    BlankedSeparated(ts);
    LexText(Blanked(ts));
    BindBlanked(ts, 1, count);
  }

  // A filter's text with its parameters made positional.
  lemma FilterReadsBack(d: Dialect, e: Expr)
    requires Emit(d, e, 1).Ok?
    ensures ReadText(Text(Blanked(Tokens(d, e, 1)))) == Parse(Tokens(d, e, 1))
  {
    EmitSeparated(d, e, 1);
    PlaceholdersInOrder(d, e, 1);
    ReadsBack(Tokens(d, e, 1), |Emit(d, e, 1).value.args|);
  }
}
