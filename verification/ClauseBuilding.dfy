/**
 The steps that the query builders share: each adds conditions with their
 arguments to what is written so far, or refuses a part of the request.
 */
module ClauseBuilding {
  import opened Prelude
  import opened CelSyntax
  import opened SqlSyntax
  import opened CelConverter
  import opened FilterMeaning
  import opened Activities
  import opened Keyset
  import opened SqlRendering
  import opened ConditionLists
  import opened SqlConverter
  import opened ParameterText

  datatype Query = Query(whereText: string, args: seq<Datum>)

  datatype QueryError =
    | InvalidStartTime
    | InvalidEndTime
    | InvalidField
    | InvalidFilter(reason: ConvertError)
    | InvalidCursor(cause: CursorError)

  // How a builder writes its conditions, and the arguments it adds for them.
  datatype Wording<!C> = Wording(text: C -> string, values: C -> seq<Datum>) {
    function Texts(cs: seq<C>): (texts: seq<string>)
      ensures |texts| == |cs| && forall i :: 0 <= i < |cs| ==> texts[i] == text(cs[i])
    {
      seq(|cs|, i requires 0 <= i < |cs| => text(cs[i]))
    }

    function Values(cs: seq<C>): (all: seq<seq<Datum>>)
      ensures |all| == |cs| && forall i :: 0 <= i < |cs| ==> all[i] == values(cs[i])
    {
      seq(|cs|, i requires 0 <= i < |cs| => values(cs[i]))
    }
  }

  // Conditions written so far, with their arguments.
  ghost predicate Built<C>(w: Wording<C>, cs: seq<C>, conditions: seq<string>, args: seq<Datum>) {
    conditions == w.Texts(cs) && args == Flat(w.Values(cs))
  }

  // A step of a builder: what it writes for some conditions, or its error.
  ghost predicate Step<C>(w: Wording<C>, cs: seq<C>, more: Result<seq<C>, QueryError>,
                          result: Result<(seq<string>, seq<Datum>), QueryError>) {
    match more
    case Err(e) => result == Err(e)
    case Ok(cs') => result.Ok? && Built(w, cs + cs', result.value.0, result.value.1)
  }

  function Then<C, E>(a: Result<seq<C>, E>, b: Result<seq<C>, E>): Result<seq<C>, E> {
    if a.Err? then a else if b.Err? then b else Ok(a.value + b.value)
  }

  lemma {:induction false} FlatConcat(a: seq<seq<Datum>>, b: seq<seq<Datum>>)
    ensures Flat(a + b) == Flat(a) + Flat(b)
  {
    if a == [] {
      assert a + b == b;
    } else {
      assert (a + b)[1..] == a[1..] + b;
      FlatConcat(a[1..], b);
    }
  }

  lemma BuiltMore<C>(w: Wording<C>, cs: seq<C>, conditions: seq<string>, args: seq<Datum>, c: C)
    requires Built(w, cs, conditions, args)
    ensures Built(w, cs + [c], conditions + [w.text(c)], args + w.values(c))
  {
    assert w.Values(cs + [c]) == w.Values(cs) + [w.values(c)];
    FlatConcat(w.Values(cs), [w.values(c)]);
    assert [w.values(c)][1..] == [];
    assert Flat([w.values(c)]) == w.values(c);
  }

  method AddCondition<C>(w: Wording<C>, ghost cs: seq<C>, conditions: seq<string>, args: seq<Datum>, c: C)
    returns (conditions': seq<string>, args': seq<Datum>)
    requires Built(w, cs, conditions, args)
    ensures Built(w, cs + [c], conditions', args')
  {
    BuiltMore(w, cs, conditions, args, c);
    conditions' := conditions + [w.text(c)];
    args' := args + w.values(c);
  }

  // A relative or absolute time bound, when one is given.
  function TimeBound<C>(parse: (string, int) -> Option<int>, now: int, text: string, bound: int -> C, error: QueryError)
    : Result<seq<C>, QueryError>
  {
    if text == "" then Ok([])
    else match parse(text, now)
      case None => Err(error)
      case Some(t) => Ok([bound(t)])
  }

  method AddTime<C>(w: Wording<C>, ghost cs: seq<C>, conditions: seq<string>, args: seq<Datum>,
                    parse: (string, int) -> Option<int>, now: int, text: string, bound: int -> C, error: QueryError)
    returns (result: Result<(seq<string>, seq<Datum>), QueryError>)
    requires Built(w, cs, conditions, args)
    ensures Step(w, cs, TimeBound(parse, now, text, bound, error), result)
  {
    if text == "" {
      assert cs + [] == cs;
      return Ok((conditions, args));
    }
    var t := parse(text, now);
    if t.None? {
      return Err(error);
    }
    var conditions', args' := AddCondition(w, cs, conditions, args, bound(t.value));
    result := Ok((conditions', args'));
  }

  lemma {:induction false} PlaceholderListed(ts: seq<Token>, i: nat)
    requires i < |ts| && ts[i].Placeholder?
    ensures ts[i].n in Placeholders(ts)
  {
    if i > 0 {
      PlaceholderListed(ts[1..], i - 1);
    }
  }

  lemma MarkedIsBlanked(d: Dialect, e: Expr)
    requires Emit(d, e, 1).Ok?
    ensures var f := Emit(d, e, 1).value; Marked(f.tokens, 1, |f.args| + 1) == Blanked(f.tokens)
  {
    var f := Emit(d, e, 1).value;
    PlaceholdersInOrder(d, e, 1);
    forall i | 0 <= i < |f.tokens| ensures MarkIn(f.tokens[i], 1, |f.args| + 1) == Blank(f.tokens[i]) {
      if f.tokens[i].Placeholder? {
        PlaceholderListed(f.tokens, i);
      }
    }
  }

  // Conversion by the converter object, then one ? for each of its arguments.
  method ConvertFilter(d: Dialect, e: Expr) returns (r: Result<(string, seq<Datum>), ConvertError>)
    ensures match Emit(d, e, 1)
      case Err(reason) => r == Err(reason)
      case Ok(f) => r == Ok((Spelled(f.tokens), Data(f.args)))
  {
    var converter := new BaseSQLConverter(d);
    var sql := converter.ConvertExpr(e);
    if sql.Err? {
      return Err(sql.error);
    }
    ghost var f := Emit(d, e, 1).value;
    assert [] + f.args == f.args;
    EmitIsPlain(d, e, 1);
    var processed := Positional(sql.value, |converter.args|, f.tokens);
    MarkedIsBlanked(d, e);
    r := Ok((processed, Data(converter.args)));
  }

  // A filter whose fields the validator allows and that converts.
  function FilterConditions<C>(d: Dialect, filter: Option<Expr>, filtered: Expr -> C): Result<seq<C>, QueryError> {
    if filter.None? then Ok([])
    else if !ValidateFieldAccess(d.domain, filter.value) then Err(InvalidField)
    else match Emit(d, filter.value, 1)
      case Err(e) => Err(InvalidFilter(e))
      case Ok(_) => Ok([filtered(filter.value)])
  }

  method AddFilter<C>(w: Wording<C>, ghost cs: seq<C>, conditions: seq<string>, args: seq<Datum>,
                      d: Dialect, filter: Option<Expr>, filtered: Expr -> C)
    returns (result: Result<(seq<string>, seq<Datum>), QueryError>)
    requires Built(w, cs, conditions, args)
    requires filter.Some? && Emit(d, filter.value, 1).Ok? ==>
      && w.text(filtered(filter.value)) == Spelled(Emit(d, filter.value, 1).value.tokens)
      && w.values(filtered(filter.value)) == Data(Emit(d, filter.value, 1).value.args)
    ensures Step(w, cs, FilterConditions(d, filter, filtered), result)
  {
    if filter.None? {
      assert cs + [] == cs;
      return Ok((conditions, args));
    }
    if !ValidateFieldAccess(d.domain, filter.value) {
      return Err(InvalidField);
    }
    var converted := ConvertFilter(d, filter.value);
    if converted.Err? {
      return Err(InvalidFilter(converted.error));
    }
    BuiltMore(w, cs, conditions, args, filtered(filter.value));
    result := Ok((conditions + [converted.value.0], args + converted.value.1));
  }

  // The condition to continue past a decoded cursor, when one is given.
  function CursorConditions<P, C>(position: Option<Result<P, CursorError>>, past: P -> C): Result<seq<C>, QueryError> {
    match position
    case None => Ok([])
    case Some(Err(e)) => Err(InvalidCursor(e))
    case Some(Ok(p)) => Ok([past(p)])
  }

  method AddCursor<P, C>(w: Wording<C>, ghost cs: seq<C>, conditions: seq<string>, args: seq<Datum>,
                         position: Option<Result<P, CursorError>>, past: P -> C)
    returns (result: Result<(seq<string>, seq<Datum>), QueryError>)
    requires Built(w, cs, conditions, args)
    ensures Step(w, cs, CursorConditions(position, past), result)
  {
    match position {
      case None =>
        assert cs + [] == cs;
        result := Ok((conditions, args));
      case Some(Err(e)) => result := Err(InvalidCursor(e));
      case Some(Ok(p)) =>
        var conditions', args' := AddCondition(w, cs, conditions, args, past(p));
        result := Ok((conditions', args'));
    }
  }
}
