/**
 The text of a condition with positional parameters, written directly from its
 tree, and the proof that it is the text of the printed tokens.
 */
module SqlRendering {
  import opened Prelude
  import opened CelSyntax
  import opened SqlSyntax
  import opened SqlPrinting
  import opened SqlConverter
  import opened ConditionLists

  function RenderTerm(t: Sql): string
    requires IsTerm(t)
  {
    match t
    case Col(c) => ColumnName(c)
    case Param(_) => "?"
    case Num(v) => Decimal(v)
    case Lit(s) => "'" + s + "'"
    case Func(fn, args) =>
      FnName(fn) + "(" + RenderTerm(args[0]) + (if |args| == 1 then "" else ", " + RenderTerm(args[1])) + ")"
  }

  function Render(t: Sql): string
    requires IsCondition(t)
    decreases t, 1
  {
    match t
    case Cmp(op, l, r) => RenderTerm(l) + " " + Spelling(op) + " " + RenderTerm(r)
    case Conj(_, _) => "(" + RenderAnd(t) + ")"
    case Disj(_, _) => "(" + RenderOr(t) + ")"
  }

  function RenderAnd(t: Sql): string
    requires IsCondition(t)
    decreases t, if t.Conj? then 0 else 2
  {
    if t.Conj? then RenderAnd(t.l) + " AND " + Render(t.r) else Render(t)
  }

  function RenderOr(t: Sql): string
    requires IsCondition(t)
    decreases t, if t.Disj? then 0 else 2
  {
    if t.Disj? then RenderOr(t.l) + " OR " + Render(t.r) else Render(t)
  }

  // The text of tokens whose parameters are positional.
  function Spelled(ts: seq<Token>): string {
    Text(Blanked(ts))
  }

  lemma SpelledOne(t: Token)
    ensures Spelled([t]) == TokenText(Blank(t))
  {
    assert Blanked([t]) == [Blank(t)];
    TextOfOne(Blank(t));
  }

  lemma SpelledConcat(a: seq<Token>, b: seq<Token>)
    ensures Spelled(a + b) == Spelled(a) + Spelled(b)
  {
    BlankedConcat(a, b);
    TextConcat(Blanked(a), Blanked(b));
  }

  lemma SpelledAround(t: Token, a: seq<Token>, u: Token)
    ensures Spelled([t] + a + [u]) == TokenText(Blank(t)) + Spelled(a) + TokenText(Blank(u))
  {
    SpelledConcat([t], a);
    SpelledConcat([t] + a, [u]);
    SpelledOne(t);
    SpelledOne(u);
  }

  lemma SpelledBetween(a: seq<Token>, t: Token, b: seq<Token>)
    ensures Spelled(a + [t] + b) == Spelled(a) + TokenText(Blank(t)) + Spelled(b)
  {
    SpelledConcat(a, [t]);
    SpelledConcat(a + [t], b);
    SpelledOne(t);
  }

  lemma {:induction false} TermSpelled(t: Sql)
    requires IsTerm(t)
    ensures Spelled(PrintTerm(t)) == RenderTerm(t)
  {
    match t
    case Col(c) => SpelledOne(ColumnTok(c));
    case Param(n) => SpelledOne(Placeholder(n));
    case Num(v) => SpelledOne(Number(v));
    case Lit(s) => SpelledOne(Literal(s));
    case Func(fn, args) =>
      TermSpelled(args[0]);
      if |args| == 1 {
        CallSpelled(fn, PrintTerm(args[0]), []);
      } else {
        TermSpelled(args[1]);
        SpelledSecond(PrintTerm(args[1]));
        CallSpelled(fn, PrintTerm(args[0]), [Comma] + PrintTerm(args[1]));
      }
  }

  lemma SpelledSecond(b: seq<Token>)
    ensures Spelled([Comma] + b) == ", " + Spelled(b)
  {
    SpelledConcat([Comma], b);
    SpelledOne(Comma);
  }

  lemma CallSpelled(fn: Fn, a: seq<Token>, more: seq<Token>)
    ensures Spelled([FnTok(fn), LParen] + a + more + [RParen]) == FnName(fn) + "(" + Spelled(a) + Spelled(more) + ")"
  {
    assert [FnTok(fn), LParen] == [FnTok(fn)] + [LParen];
    SpelledConcat([FnTok(fn)], [LParen]);
    SpelledOne(FnTok(fn));
    SpelledOne(LParen);
    SpelledConcat([FnTok(fn), LParen], a);
    SpelledConcat([FnTok(fn), LParen] + a, more);
    SpelledConcat([FnTok(fn), LParen] + a + more, [RParen]);
    SpelledOne(RParen);
  }

  // Printing a condition and spelling its tokens is rendering it.
  lemma {:induction false} ConditionSpelled(t: Sql)
    requires IsCondition(t)
    ensures Spelled(Print(t)) == Render(t)
    decreases t, 1
  {
    match t
    case Cmp(op, l, r) =>
      TermSpelled(l);
      TermSpelled(r);
      SpelledBetween(PrintTerm(l), CompareTok(op), PrintTerm(r));
    case Conj(_, _) =>
      AndSpelled(t);
      SpelledAround(LParen, PrintAnd(t), RParen);
    case Disj(_, _) =>
      OrSpelled(t);
      SpelledAround(LParen, PrintOr(t), RParen);
  }

  lemma {:induction false} AndSpelled(t: Sql)
    requires IsCondition(t)
    ensures Spelled(PrintAnd(t)) == RenderAnd(t)
    decreases t, if t.Conj? then 0 else 2
  {
    if t.Conj? {
      AndSpelled(t.l);
      ConditionSpelled(t.r);
      SpelledBetween(PrintAnd(t.l), AndKw, Print(t.r));
    } else {
      ConditionSpelled(t);
    }
  }

  lemma {:induction false} OrSpelled(t: Sql)
    requires IsCondition(t)
    ensures Spelled(PrintOr(t)) == RenderOr(t)
    decreases t, if t.Disj? then 0 else 2
  {
    if t.Disj? {
      OrSpelled(t.l);
      ConditionSpelled(t.r);
      SpelledBetween(PrintOr(t.l), OrKw, Print(t.r));
    } else {
      ConditionSpelled(t);
    }
  }
}
