/**
 Conditions joined by AND: how the joined text reads, how its positional
 parameters bind, and what it selects.
 */
module ConditionLists {
  import opened Prelude
  import Strings
  import opened CelSyntax
  import opened SqlSyntax
  import opened CelConverter
  import opened FilterParsing
  import opened FilterMeaning
  import opened SqlConverter

  // One condition: its tokens, its meaning and its parameters' values.
  datatype Part = Part(tokens: seq<Token>, tree: Sql, values: seq<Datum>)

  function Clause(ps: seq<Part>): seq<Token> {
    if ps == [] then [] else if |ps| == 1 then ps[0].tokens else ps[0].tokens + [AndKw] + Clause(ps[1..])
  }

  function AllValues(ps: seq<Part>): seq<Datum> {
    if ps == [] then [] else ps[0].values + AllValues(ps[1..])
  }

  function Conjoined(t: Sql, ps: seq<Part>): Sql
    decreases ps
  {
    if ps == [] then t else Conjoined(Conj(t, ps[0].tree), ps[1..])
  }

  // ---------------------------------------------------------------------
  // Positional parameters
  // ---------------------------------------------------------------------

  function Blank(t: Token): Token {
    if t.Placeholder? then Mark else t
  }

  // The text's tokens: every parameter is a bare ?.
  function Blanked(ts: seq<Token>): (r: seq<Token>)
    ensures |r| == |ts|
  {
    seq(|ts|, i requires 0 <= i < |ts| => Blank(ts[i]))
  }

  // The driver's reading of the text: the first ? takes parameter k, the next
  // one k + 1, and so on.
  function Bind(ts: seq<Token>, k: nat): seq<Token> {
    if ts == [] then []
    else if ts[0].Mark? then [Placeholder(k)] + Bind(ts[1..], k + 1)
    else [ts[0]] + Bind(ts[1..], k)
  }

  ghost predicate Numbered(ts: seq<Token>, k: nat, count: nat) {
    Placeholders(ts) == Numbers(k, count) && forall i :: 0 <= i < |ts| ==> !ts[i].Mark?
  }

  lemma {:induction false} BindBlanked(ts: seq<Token>, k: nat, count: nat)
    requires Numbered(ts, k, count)
    ensures Bind(Blanked(ts), k) == ts
  {
    if ts != [] {
      assert Blanked(ts)[1..] == Blanked(ts[1..]);
      if ts[0].Placeholder? {
        assert Placeholders(ts)[0] == ts[0].n == k;
        assert Placeholders(ts)[1..] == Placeholders(ts[1..]);
        assert Numbers(k, count)[1..] == Numbers(k + 1, count - 1);
        BindBlanked(ts[1..], k + 1, count - 1);
      } else {
        assert Placeholders(ts) == Placeholders(ts[1..]);
        BindBlanked(ts[1..], k, count);
      }
      assert [ts[0]] + ts[1..] == ts;
    }
  }

  lemma NumberedConcat(a: seq<Token>, i: nat, b: seq<Token>, j: nat, k: nat)
    requires Numbered(a, k, i) && Numbered(b, k + i, j)
    ensures Numbered(a + [AndKw] + b, k, i + j)
  {
    PlaceholdersConcat(a, [AndKw]);
    PlaceholdersConcat(a + [AndKw], b);
    NoPlaceholders([AndKw]);
  }

  ghost predicate PartsNumbered(ps: seq<Part>, k: nat) {
    ps == [] || (Numbered(ps[0].tokens, k, |ps[0].values|) && PartsNumbered(ps[1..], k + |ps[0].values|))
  }

  lemma {:induction false} ClauseNumbered(ps: seq<Part>, k: nat)
    requires PartsNumbered(ps, k)
    ensures Numbered(Clause(ps), k, |AllValues(ps)|)
  {
    if |ps| == 1 {
      assert ps[1..] == [];
    } else if ps != [] {
      var i := |ps[0].values|;
      ClauseNumbered(ps[1..], k + i);
      NumberedConcat(ps[0].tokens, i, Clause(ps[1..]), |AllValues(ps[1..])|, k);
    }
  }

  // The k-th ? of the clause is bound to the k-th value.
  lemma PositionalBinding(ps: seq<Part>)
    requires PartsNumbered(ps, 1)
    ensures Bind(Blanked(Clause(ps)), 1) == Clause(ps)
    ensures Placeholders(Clause(ps)) == Numbers(1, |AllValues(ps)|)
  {
    ClauseNumbered(ps, 1);
    BindBlanked(Clause(ps), 1, |AllValues(ps)|);
  }

  // ---------------------------------------------------------------------
  // Reading the clause
  // ---------------------------------------------------------------------

  ghost predicate Readable(p: Part) {
    forall rest :: Ends(rest) ==> ParseNot(p.tokens + rest) == Got(p.tree, rest)
  }

  ghost predicate AllReadable(ps: seq<Part>) {
    forall i :: 0 <= i < |ps| ==> Readable(ps[i])
  }

  function Rest(ps: seq<Part>): seq<Token> {
    if ps == [] then [] else [AndKw] + Clause(ps)
  }

  lemma FirstParses(ps: seq<Part>)
    requires ps != [] && Readable(ps[0])
    ensures ParseNot(Clause(ps)) == Got(ps[0].tree, Rest(ps[1..]))
  {
    var rest := Rest(ps[1..]);
    assert Clause(ps) == ps[0].tokens + rest;
    assert Ends(rest);
  }

  lemma {:induction false} TailParses(t: Sql, ps: seq<Part>)
    requires AllReadable(ps)
    ensures AndTail(t, Rest(ps)) == Got(Conjoined(t, ps), [])
    decreases ps
  {
    if ps != [] {
      FirstParses(ps);
      TailParses(Conj(t, ps[0].tree), ps[1..]);
    }
  }

  function WholeTree(ps: seq<Part>): Sql
    requires ps != []
  {
    Conjoined(ps[0].tree, ps[1..])
  }

  // The clause reads back as the conjunction of its conditions: no condition's
  // text reaches into its neighbours'.
  lemma ClauseParses(ps: seq<Part>)
    requires AllReadable(ps) && ps != []
    ensures Parse(Clause(ps)) == Got(WholeTree(ps), [])
  {
    FirstParses(ps);
    TailParses(ps[0].tree, ps[1..]);
    FromAnd(Clause(ps), ps[0].tree, Rest(ps[1..]), WholeTree(ps));
  }

  lemma FromAnd(ts: seq<Token>, u: Sql, rest: seq<Token>, t: Sql)
    requires ParseNot(ts) == Got(u, rest) && AndTail(u, rest) == Got(t, [])
    ensures Parse(ts) == Got(t, [])
  {
    assert ParseAnd(ts) == Got(t, []);
    assert ParseOr(ts) == OrTail(t, []) == Got(t, []);
  }

  // ---------------------------------------------------------------------
  // Evaluating the clause
  // ---------------------------------------------------------------------

  ghost predicate Window(args: seq<Datum>, k: nat, vs: seq<Datum>) {
    1 <= k && k - 1 + |vs| <= |args| && forall i :: 0 <= i < |vs| ==> args[k - 1 + i] == vs[i]
  }

  lemma WindowAt(args: seq<Datum>, k: nat, vs: seq<Datum>, i: nat)
    requires Window(args, k, vs) && i < |vs|
    ensures k + i <= |args| && args[k - 1 + i] == vs[i]
  {
  }

  lemma WindowSplit(args: seq<Datum>, k: nat, xs: seq<Datum>, ys: seq<Datum>)
    requires Window(args, k, xs + ys)
    ensures Window(args, k, xs) && Window(args, k + |xs|, ys)
  {
    forall i | 0 <= i < |xs| ensures args[k - 1 + i] == xs[i] {
      WindowAt(args, k, xs + ys, i);
    }
    forall i | 0 <= i < |ys| ensures args[k + |xs| - 1 + i] == ys[i] {
      WindowAt(args, k, xs + ys, |xs| + i);
    }
  }

  // Both answers, and none as soon as one of them fails.
  function StrictAnd(a: Option<bool>, b: Option<bool>): Option<bool> {
    if a.None? || b.None? then None else Some(a.value && b.value)
  }

  function Every(bs: seq<Option<bool>>): Option<bool> {
    if bs == [] then Some(true) else StrictAnd(bs[0], Every(bs[1..]))
  }

  ghost predicate Unreadable(p: Part) {
    forall rest :: Ends(rest) ==> ParseNot(p.tokens + rest) == Fail
  }

  // The condition reads back as a tree that gives this answer, or not at all.
  ghost predicate Judged(row: Row, args: seq<Datum>, p: Part, b: Option<bool>) {
    (Readable(p) && AsBool(SqlEval(row, args, p.tree)) == b) || (Unreadable(p) && b == None)
  }

  ghost predicate AllJudged(row: Row, args: seq<Datum>, ps: seq<Part>, bs: seq<Option<bool>>) {
    |ps| == |bs| && forall i :: 0 <= i < |ps| ==> Judged(row, args, ps[i], bs[i])
  }

  // What a parsed condition answers on a row.
  function ParsedAnswer(row: Row, args: seq<Datum>, p: Parsed): Option<bool> {
    match p
    case Fail => None
    case Got(t, _) => AsBool(SqlEval(row, args, t))
  }

  lemma ConjAnswers(row: Row, args: seq<Datum>, x: Sql, y: Sql)
    ensures AsBool(SqlEval(row, args, Conj(x, y))) == StrictAnd(AsBool(SqlEval(row, args, x)), AsBool(SqlEval(row, args, y)))
  {
  }

  // A condition and what is joined to it by AND.
  ghost predicate TailAnswers(row: Row, args: seq<Datum>, p: Parsed, b: Option<bool>) {
    ParsedAnswer(row, args, p) == b && (p.Got? ==> p.rest == [])
  }

  lemma {:induction false} TailMeans(row: Row, args: seq<Datum>, t: Sql, ps: seq<Part>, bs: seq<Option<bool>>)
    requires AllJudged(row, args, ps, bs)
    ensures TailAnswers(row, args, AndTail(t, Rest(ps)), StrictAnd(AsBool(SqlEval(row, args, t)), Every(bs)))
    decreases ps
  {
    if ps != [] {
      RestJudged(row, args, ps, bs);
      TailStep(t, ps);
      if Readable(ps[0]) {
        ConjAnswers(row, args, t, ps[0].tree);
        TailMeans(row, args, Conj(t, ps[0].tree), ps[1..], bs[1..]);
      }
    }
  }

  lemma RestJudged(row: Row, args: seq<Datum>, ps: seq<Part>, bs: seq<Option<bool>>)
    requires AllJudged(row, args, ps, bs) && ps != []
    ensures Judged(row, args, ps[0], bs[0]) && AllJudged(row, args, ps[1..], bs[1..])
  {
    assert forall i :: 0 <= i < |ps| - 1 ==> ps[1..][i] == ps[i + 1] && bs[1..][i] == bs[i + 1];
  }

  lemma TailStep(t: Sql, ps: seq<Part>)
    requires ps != []
    ensures Readable(ps[0]) ==> AndTail(t, Rest(ps)) == AndTail(Conj(t, ps[0].tree), Rest(ps[1..]))
    ensures Unreadable(ps[0]) ==> AndTail(t, Rest(ps)) == Fail
  {
    var after := Rest(ps[1..]);
    assert Clause(ps) == ps[0].tokens + after && Ends(after);
    assert Rest(ps)[1..] == Clause(ps);
  }

  // The clause answers when all of its conditions do, and then with their
  // conjunction.
  lemma ClauseMeans(row: Row, args: seq<Datum>, ps: seq<Part>, bs: seq<Option<bool>>)
    requires ps != [] && AllJudged(row, args, ps, bs)
    ensures ParsedAnswer(row, args, Parse(Clause(ps))) == Every(bs)
  {
    var after := Rest(ps[1..]);
    assert Clause(ps) == ps[0].tokens + after && Ends(after);
    RestJudged(row, args, ps, bs);
    if Readable(ps[0]) {
      TailMeans(row, args, ps[0].tree, ps[1..], bs[1..]);
      OfAnd(Clause(ps), ps[0].tree, after);
    } else {
      assert ParseAnd(Clause(ps)) == Fail;
    }
  }

  lemma OfAnd(ts: seq<Token>, u: Sql, rest: seq<Token>)
    requires ParseNot(ts) == Got(u, rest) && (AndTail(u, rest).Got? ==> AndTail(u, rest).rest == [])
    ensures Parse(ts) == AndTail(u, rest)
  {
    assert ParseAnd(ts) == AndTail(u, rest);
    if AndTail(u, rest).Got? {
      FromAnd(ts, u, rest, AndTail(u, rest).tree);
    }
  }

  // ---------------------------------------------------------------------
  // The clause's text
  // ---------------------------------------------------------------------

  lemma BlankedConcat(a: seq<Token>, b: seq<Token>)
    ensures Blanked(a + b) == Blanked(a) + Blanked(b)
  {
  }

  lemma BlankedAround(pre: seq<Token>, a: seq<Token>, post: seq<Token>)
    ensures Blanked(pre + a + post) == Blanked(pre) + Blanked(a) + Blanked(post)
  {
    BlankedConcat(pre, a);
    BlankedConcat(pre + a, post);
  }

  function Texts(ps: seq<Part>): seq<string> {
    seq(|ps|, i requires 0 <= i < |ps| => Text(Blanked(ps[i].tokens)))
  }

  // Joining the conditions' texts spells the whole clause.
  lemma {:induction false} JoinedTexts(ps: seq<Part>)
    ensures Strings.Join(Texts(ps), " AND ") == Text(Blanked(Clause(ps)))
  {
    if |ps| > 1 {
      JoinedTexts(ps[1..]);
      JoinedPair(ps[0].tokens, Clause(ps[1..]));
      assert Texts(ps)[1..] == Texts(ps[1..]);
    }
  }

  lemma JoinedPair(a: seq<Token>, b: seq<Token>)
    ensures Text(Blanked(a + [AndKw] + b)) == Text(Blanked(a)) + " AND " + Text(Blanked(b))
  {
    BlankedAround(a, [AndKw], b);
    assert Blanked([AndKw]) == [AndKw];
    TextAround(Blanked(a), [AndKw], Blanked(b));
    TextOfOne(AndKw);
  }

  // ---------------------------------------------------------------------
  // Numbering a list of conditions one after the other
  // ---------------------------------------------------------------------

  // `f` writes a condition with parameters numbered from a given index.
  function Lay<T>(f: (T, nat) -> Part, cs: seq<T>, k: nat): (ps: seq<Part>)
    ensures |ps| == |cs|
  {
    if cs == [] then []
    else
      var p := f(cs[0], k);
      [p] + Lay(f, cs[1..], k + |p.values|)
  }

  ghost predicate NumbersItself<T>(f: (T, nat) -> Part, c: T) {
    forall k: nat :: Numbered(f(c, k).tokens, k, |f(c, k).values|)
  }

  lemma {:induction false} LaidNumbered<T>(f: (T, nat) -> Part, cs: seq<T>, k: nat)
    requires forall i :: 0 <= i < |cs| ==> NumbersItself(f, cs[i])
    ensures PartsNumbered(Lay(f, cs, k), k)
  {
    if cs != [] {
      var p := f(cs[0], k);
      assert NumbersItself(f, cs[0]);
      LaidNumbered(f, cs[1..], k + |p.values|);
      assert Lay(f, cs, k)[1..] == Lay(f, cs[1..], k + |p.values|);
    }
  }

  ghost predicate SpelledAs<T>(f: (T, nat) -> Part, c: T, text: string) {
    forall k: nat :: Text(Blanked(f(c, k).tokens)) == text
  }

  lemma {:induction false} LaidAt<T>(f: (T, nat) -> Part, cs: seq<T>, k: nat, i: nat) returns (n: nat)
    requires i < |cs|
    ensures Lay(f, cs, k)[i] == f(cs[i], n)
  {
    if i == 0 {
      n := k;
    } else {
      n := LaidAt(f, cs[1..], k + |f(cs[0], k).values|, i - 1);
    }
  }

  lemma LaidTexts<T>(f: (T, nat) -> Part, cs: seq<T>, k: nat, texts: seq<string>)
    requires |texts| == |cs| && forall i :: 0 <= i < |cs| ==> SpelledAs(f, cs[i], texts[i])
    ensures Texts(Lay(f, cs, k)) == texts
  {
    var all := Texts(Lay(f, cs, k));
    forall i | 0 <= i < |cs| ensures all[i] == texts[i] {
      var n := LaidAt(f, cs, k, i);
      assert SpelledAs(f, cs[i], texts[i]);
    }
  }

  lemma {:induction false} LaidValues<T>(f: (T, nat) -> Part, cs: seq<T>, k: nat, values: seq<seq<Datum>>)
    requires |values| == |cs| && forall i, n: nat :: 0 <= i < |cs| ==> f(cs[i], n).values == values[i]
    ensures AllValues(Lay(f, cs, k)) == Flat(values)
  {
    if cs != [] {
      var p := f(cs[0], k);
      LaidValues(f, cs[1..], k + |p.values|, values[1..]);
      assert Lay(f, cs, k)[1..] == Lay(f, cs[1..], k + |p.values|);
    }
  }

  function Flat(values: seq<seq<Datum>>): seq<Datum> {
    if values == [] then [] else values[0] + Flat(values[1..])
  }

  // Reads back as a tree that gives answer b when its values are bound, or not
  // at all.
  ghost predicate MeansAs<T>(f: (T, nat) -> Part, row: Row, args: seq<Datum>, c: T, b: Option<bool>) {
    forall k: nat :: Window(args, k, f(c, k).values) ==> Judged(row, args, f(c, k), b)
  }

  lemma {:induction false} LaidMeans<T>(f: (T, nat) -> Part, cs: seq<T>, k: nat, row: Row, args: seq<Datum>, bs: seq<Option<bool>>)
    requires |bs| == |cs| && forall i :: 0 <= i < |cs| ==> MeansAs(f, row, args, cs[i], bs[i])
    requires Window(args, k, AllValues(Lay(f, cs, k)))
    ensures AllJudged(row, args, Lay(f, cs, k), bs)
  {
    if cs != [] {
      var p := f(cs[0], k);
      var ps := Lay(f, cs[1..], k + |p.values|);
      WindowSplit(args, k, p.values, AllValues(ps));
      assert MeansAs(f, row, args, cs[0], bs[0]);
      forall i | 0 <= i < |cs| - 1 ensures MeansAs(f, row, args, cs[1..][i], bs[1..][i]) {
        assert MeansAs(f, row, args, cs[i + 1], bs[i + 1]);
      }
      LaidMeans(f, cs[1..], k + |p.values|, row, args, bs[1..]);
    }
  }
}
