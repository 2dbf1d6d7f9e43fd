/**
 Writing a condition out so that it reads back as itself: comparisons bare,
 conjunctions and disjunctions in one pair of parentheses per chain.
 */
module SqlPrinting {
  import opened Prelude
  import opened CelSyntax
  import opened SqlSyntax
  import opened CelConverter
  import opened FilterParsing

  predicate IsTerm(t: Sql) {
    match t
    case Col(_) => true
    case Param(_) => true
    case Num(_) => true
    case Lit(_) => true
    case Func(_, args) => 1 <= |args| <= 2 && IsTerm(args[0]) && (|args| == 2 ==> IsTerm(args[1]))
    case _ => false
  }

  predicate IsCondition(t: Sql) {
    match t
    case Cmp(_, l, r) => IsTerm(l) && IsTerm(r)
    case Conj(l, r) => IsCondition(l) && IsCondition(r)
    case Disj(l, r) => IsCondition(l) && IsCondition(r)
    case _ => false
  }

  function PrintTerm(t: Sql): seq<Token>
    requires IsTerm(t)
  {
    match t
    case Col(c) => [ColumnTok(c)]
    case Param(n) => [Placeholder(n)]
    case Num(v) => [Number(v)]
    case Lit(s) => [Literal(s)]
    case Func(fn, args) =>
      [FnTok(fn), LParen] + PrintTerm(args[0]) +
      (if |args| == 1 then [] else [Comma] + PrintTerm(args[1])) + [RParen]
  }

  function Print(t: Sql): seq<Token>
    requires IsCondition(t)
    decreases t, 1
  {
    match t
    case Cmp(op, l, r) => PrintTerm(l) + [CompareTok(op)] + PrintTerm(r)
    case Conj(_, _) => [LParen] + PrintAnd(t) + [RParen]
    case Disj(_, _) => [LParen] + PrintOr(t) + [RParen]
  }

  function PrintAnd(t: Sql): seq<Token>
    requires IsCondition(t)
    decreases t, if t.Conj? then 0 else 2
  {
    if t.Conj? then PrintAnd(t.l) + [AndKw] + Print(t.r) else Print(t)
  }

  function PrintOr(t: Sql): seq<Token>
    requires IsCondition(t)
    decreases t, if t.Disj? then 0 else 2
  {
    if t.Disj? then PrintOr(t.l) + [OrKw] + Print(t.r) else Print(t)
  }

  lemma {:induction false} TermParses(t: Sql, rest: seq<Token>)
    requires IsTerm(t) && !At(rest, LParen)
    ensures ParsePrimary(PrintTerm(t) + rest) == Got(t, rest)
    decreases t, 1
  {
    if t.Func? && |t.args| == 1 {
      OneArgumentParses(t, rest);
    } else if t.Func? {
      TwoArgumentsParse(t, rest);
    } else {
      assert (PrintTerm(t) + rest)[1..] == rest;
    }
  }

  lemma {:induction false} OneArgumentParses(t: Sql, rest: seq<Token>)
    requires IsTerm(t) && t.Func? && |t.args| == 1
    ensures ParsePrimary(PrintTerm(t) + rest) == Got(t, rest)
    decreases t, 0
  {
    var x := t.args[0];
    TermItem(x, [RParen] + rest);
    OneArgument(t.fn, PrintTerm(x), x, rest);
    assert [x] == t.args;
    assert PrintTerm(t) == [FnTok(t.fn), LParen] + PrintTerm(x) + [RParen];
  }

  lemma {:induction false} TwoArgumentsParse(t: Sql, rest: seq<Token>)
    requires IsTerm(t) && t.Func? && |t.args| == 2
    ensures ParsePrimary(PrintTerm(t) + rest) == Got(t, rest)
    decreases t, 0
  {
    var x, y := t.args[0], t.args[1];
    TermItem(x, [Comma] + PrintTerm(y) + ([RParen] + rest));
    TermItem(y, [RParen] + rest);
    TwoArguments(t.fn, PrintTerm(x), x, PrintTerm(y), y, rest);
    assert [x, y] == t.args;
  }

  lemma OneArgument(fn: Fn, a: seq<Token>, x: Sql, rest: seq<Token>)
    requires a != [] && !a[0].RParen? && ParseOr(a + ([RParen] + rest)) == Got(x, [RParen] + rest)
    ensures ParsePrimary([FnTok(fn), LParen] + a + [RParen] + rest) == Got(Func(fn, [x]), rest)
  {
    assert ([RParen] + rest)[1..] == rest;
    CallPrimary(fn, a, Some([x]), rest);
  }

  lemma TwoArguments(fn: Fn, a: seq<Token>, x: Sql, b: seq<Token>, y: Sql, rest: seq<Token>)
    requires a != [] && !a[0].RParen?
    requires ParseOr(a + ([Comma] + b + ([RParen] + rest))) == Got(x, [Comma] + b + ([RParen] + rest))
    requires ParseOr(b + ([RParen] + rest)) == Got(y, [RParen] + rest)
    ensures ParsePrimary([FnTok(fn), LParen] + a + ([Comma] + b) + [RParen] + rest) == Got(Func(fn, [x, y]), rest)
  {
    assert [FnTok(fn), LParen] + a + ([Comma] + b) == [FnTok(fn), LParen] + (a + [Comma] + b);
    TwoItems(a, b, Some(x), Some(y), rest);
    CallPrimary(fn, a + [Comma] + b, Some([x, y]), rest);
  }

  lemma {:induction false} TermItem(t: Sql, rest: seq<Token>)
    requires IsTerm(t) && Closes(rest)
    ensures ParseOr(PrintTerm(t) + rest) == Got(t, rest)
    decreases t, 2
  {
    TermParses(t, rest);
    var ts := PrintTerm(t) + rest;
    assert ParseCmp(ts) == Got(t, rest);
    assert ParseNot(ts) == Got(t, rest);
    assert ParseAnd(ts) == Got(t, rest);
  }

  lemma CmpParses(t: Sql, rest: seq<Token>)
    requires IsCondition(t) && t.Cmp? && Ends(rest)
    ensures ParseNot(Print(t) + rest) == Got(t, rest)
  {
    var op, r := [CompareTok(t.op)], PrintTerm(t.r) + rest;
    TermParses(t.l, op + r);
    TermParses(t.r, rest);
    CmpFromTerms(PrintTerm(t.l), PrintTerm(t.r), t, rest);
  }

  lemma CmpFromTerms(a: seq<Token>, b: seq<Token>, t: Sql, rest: seq<Token>)
    requires t.Cmp? && Ends(rest) && a != [] && !a[0].NotKw?
    requires ParsePrimary(a + ([CompareTok(t.op)] + (b + rest))) == Got(t.l, [CompareTok(t.op)] + (b + rest))
    requires ParsePrimary(b + rest) == Got(t.r, rest)
    ensures ParseNot(a + [CompareTok(t.op)] + b + rest) == Got(t, rest)
  {
    var more := [CompareTok(t.op)] + (b + rest);
    assert a + [CompareTok(t.op)] + b + rest == a + more;
    assert more[1..] == b + rest;
    assert CmpTail(t.l, more) == CmpTail(t, rest) == Got(t, rest);
  }

  lemma {:induction false} ConditionParses(t: Sql, rest: seq<Token>)
    requires IsCondition(t) && Ends(rest)
    ensures ParseNot(Print(t) + rest) == Got(t, rest)
    decreases t, 1
  {
    var close := [RParen] + rest;
    match t
    case Cmp(_, _, _) => CmpParses(t, rest);
    case Conj(_, _) =>
      AndChain(t, close);
      assert ParseOr(PrintAnd(t) + close) == OrTail(t, close) == Got(t, close);
      ParenParses(PrintAnd(t), t, rest);
    case Disj(_, _) =>
      OrChain(t, close);
      assert ParseOr(PrintOr(t) + close) == OrTail(t, close) == Got(t, close);
      ParenParses(PrintOr(t), t, rest);
  }

  lemma ParenParses(inner: seq<Token>, t: Sql, rest: seq<Token>)
    requires Ends(rest) && ParseOr(inner + ([RParen] + rest)) == Got(t, [RParen] + rest)
    ensures ParseNot([LParen] + inner + [RParen] + rest) == Got(t, rest)
  {
    ParenPrimary(inner, Some(t), rest);
    var ts := [LParen] + inner + [RParen] + rest;
    assert ParseCmp(ts) == Got(t, rest);
  }

  lemma {:induction false} AndChain(t: Sql, rest: seq<Token>)
    requires IsCondition(t) && Ends(rest)
    ensures ParseAnd(PrintAnd(t) + rest) == AndTail(t, rest)
    decreases t, if t.Conj? then 0 else 2
  {
    if t.Conj? {
      var more := [AndKw] + Print(t.r) + rest;
      AndChain(t.l, more);
      ConditionParses(t.r, rest);
      assert PrintAnd(t) + rest == PrintAnd(t.l) + more;
      assert more[1..] == Print(t.r) + rest;
    } else {
      ConditionParses(t, rest);
    }
  }

  lemma {:induction false} OrChain(t: Sql, rest: seq<Token>)
    requires IsCondition(t) && Ends(rest) && !At(rest, AndKw)
    ensures ParseOr(PrintOr(t) + rest) == OrTail(t, rest)
    decreases t, if t.Disj? then 0 else 2
  {
    if t.Disj? {
      var more := [OrKw] + Print(t.r) + rest;
      OrChain(t.l, more);
      ConditionParses(t.r, rest);
      assert PrintOr(t) + rest == PrintOr(t.l) + more;
      assert more[1..] == Print(t.r) + rest;
      assert ParseAnd(Print(t.r) + rest) == AndTail(t.r, rest) == Got(t.r, rest);
    } else {
      ConditionParses(t, rest);
      assert ParseAnd(Print(t) + rest) == AndTail(t, rest) == Got(t, rest);
    }
  }

  // ---------------------------------------------------------------------
  // Parameters
  // ---------------------------------------------------------------------

  // A condition's parameters, left to right.
  function Params(t: Sql): seq<nat> {
    match t
    case Param(n) => [n]
    case Func(_, args) =>
      if |args| == 1 then Params(args[0]) else if |args| == 2 then Params(args[0]) + Params(args[1]) else []
    case Cmp(_, l, r) => Params(l) + Params(r)
    case Conj(l, r) => Params(l) + Params(r)
    case Disj(l, r) => Params(l) + Params(r)
    case _ => []
  }

  lemma {:induction false} TermParams(t: Sql)
    requires IsTerm(t)
    ensures Placeholders(PrintTerm(t)) == Params(t)
  {
    if t.Func? {
      var x := t.args[0];
      TermParams(x);
      NoPlaceholders([FnTok(t.fn), LParen]);
      if |t.args| == 1 {
        PlaceholdersBetween([FnTok(t.fn), LParen], PrintTerm(x), [], [], [RParen]);
        assert [FnTok(t.fn), LParen] + PrintTerm(x) + [] + [] + [RParen] == PrintTerm(t);
      } else {
        TermParams(t.args[1]);
        PlaceholdersBetween([FnTok(t.fn), LParen], PrintTerm(x), [Comma], PrintTerm(t.args[1]), [RParen]);
        assert [FnTok(t.fn), LParen] + PrintTerm(x) + [Comma] + PrintTerm(t.args[1]) + [RParen] == PrintTerm(t);
      }
    }
  }

  lemma {:induction false} PrintParams(t: Sql)
    requires IsCondition(t)
    ensures Placeholders(Print(t)) == Params(t)
    decreases t, 1
  {
    match t
    case Cmp(op, l, r) =>
      TermParams(l);
      TermParams(r);
      SeparatedParams(PrintTerm(l), CompareTok(op), PrintTerm(r));
    case Conj(_, _) =>
      ChainParams(t);
      SurroundedParams(PrintAnd(t));
    case Disj(_, _) =>
      ChainParams(t);
      SurroundedParams(PrintOr(t));
  }

  lemma {:induction false} ChainParams(t: Sql)
    requires IsCondition(t)
    ensures !t.Cmp? ==> Placeholders(if t.Conj? then PrintAnd(t) else PrintOr(t)) == Params(t)
    decreases t, 0
  {
    if t.Conj? {
      PrintParams(t.r);
      PrintParams(t.l);
      ChainParams(t.l);
      SeparatedParams(PrintAnd(t.l), AndKw, Print(t.r));
    } else if t.Disj? {
      PrintParams(t.r);
      PrintParams(t.l);
      ChainParams(t.l);
      SeparatedParams(PrintOr(t.l), OrKw, Print(t.r));
    }
  }

  lemma SeparatedParams(a: seq<Token>, op: Token, b: seq<Token>)
    requires !op.Placeholder?
    ensures Placeholders(a + [op] + b) == Placeholders(a) + Placeholders(b)
  {
    PlaceholdersConcat(a, [op]);
    PlaceholdersConcat(a + [op], b);
  }

  lemma SurroundedParams(a: seq<Token>)
    ensures Placeholders([LParen] + a + [RParen]) == Placeholders(a)
  {
    PlaceholdersConcat([LParen], a);
    PlaceholdersConcat([LParen] + a, [RParen]);
  }

  // Printing writes no positional parameter.
  lemma {:induction false} TermHasNoMark(t: Sql)
    requires IsTerm(t)
    ensures forall i :: 0 <= i < |PrintTerm(t)| ==> !PrintTerm(t)[i].Mark?
  {
    if t.Func? {
      TermHasNoMark(t.args[0]);
      if |t.args| == 2 {
        TermHasNoMark(t.args[1]);
      }
    }
  }

  lemma {:induction false} PrintHasNoMark(t: Sql)
    requires IsCondition(t)
    ensures forall i :: 0 <= i < |Print(t)| ==> !Print(t)[i].Mark?
    ensures forall i :: 0 <= i < |PrintAnd(t)| ==> !PrintAnd(t)[i].Mark?
    ensures forall i :: 0 <= i < |PrintOr(t)| ==> !PrintOr(t)[i].Mark?
  {
    match t
    case Cmp(_, l, r) =>
      TermHasNoMark(l);
      TermHasNoMark(r);
    case Conj(l, r) =>
      PrintHasNoMark(l);
      PrintHasNoMark(r);
      assert Print(t) == [LParen] + (PrintAnd(l) + [AndKw] + Print(r)) + [RParen];
    case Disj(l, r) =>
      PrintHasNoMark(l);
      PrintHasNoMark(r);
      assert Print(t) == [LParen] + (PrintOr(l) + [OrKw] + Print(r)) + [RParen];
  }
}
