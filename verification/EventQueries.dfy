/**
 The query of Kubernetes events: its conditions in the order the builder adds
 them, and the rows that its text and arguments select.
 */
module EventQueries {
  import opened Prelude
  import Strings
  import FieldSelector
  import B = ClauseBuilding

  datatype Value = Text(s: string) | Time(t: int)

  // A column compared with one argument.
  datatype Comparison = Comparison(column: string, sign: string, value: Value)

  datatype Scope = Scope(kind: string, name: string)

  datatype Spec = Spec(namespace: string, startTime: string, endTime: string, fieldSelector: string)

  datatype QueryError = InvalidStartTime | InvalidEndTime | InvalidSelector(cause: FieldSelector.SelectorError)

  // The flexible time parser, at the time of the request.
  type TimeParser = string -> Option<int>

  // ---------------------------------------------------------------------
  // What is asked for
  // ---------------------------------------------------------------------

  function ScopeComparisons(scope: Scope): seq<Comparison> {
    if scope.kind == "Organization" || scope.kind == "Project" || scope.kind == "User" then
      [Comparison("scope_type", "=", Text(scope.kind)), Comparison("scope_name", "=", Text(scope.name))]
    else []
  }

  function NamespaceComparison(namespace: string): seq<Comparison> {
    if namespace == "" then [] else [Comparison("namespace", "=", Text(namespace))]
  }

  function TermComparison(t: FieldSelector.Resolved): Comparison {
    Comparison(t.column, if t.op.NotEqual? then "!=" else "=", Text(t.value))
  }

  function TermComparisons(ts: seq<FieldSelector.Resolved>): seq<Comparison> {
    seq(|ts|, i requires 0 <= i < |ts| => TermComparison(ts[i]))
  }

  function Bound(parse: TimeParser, text: string, sign: string, error: QueryError): Result<seq<Comparison>, QueryError> {
    if text == "" then Ok([])
    else match parse(text)
      case None => Err(error)
      case Some(t) => Ok([Comparison("last_timestamp", sign, Time(t))])
  }

  function Selection(selector: string): Result<seq<Comparison>, QueryError> {
    match FieldSelector.Parse(FieldSelector.ResolveEventFieldSelector, selector)
    case Err(e) => Err(InvalidSelector(e))
    case Ok(ts) => Ok(TermComparisons(ts))
  }

  // Scope, namespace, time range and field selector, or the first error.
  function Requested(parse: TimeParser, spec: Spec, scope: Scope): Result<seq<Comparison>, QueryError> {
    B.Then(B.Then(B.Then(Ok(ScopeComparisons(scope) + NamespaceComparison(spec.namespace)),
                   Bound(parse, spec.startTime, ">=", InvalidStartTime)),
              Bound(parse, spec.endTime, "<", InvalidEndTime)),
         Selection(spec.fieldSelector))
  }

  // ---------------------------------------------------------------------
  // The builder
  // ---------------------------------------------------------------------

  function TextOf(c: Comparison): string {
    c.column + " " + c.sign + " ?"
  }

  function TextsOf(cs: seq<Comparison>): seq<string> {
    seq(|cs|, i requires 0 <= i < |cs| => TextOf(cs[i]))
  }

  function ValuesOf(cs: seq<Comparison>): seq<Value> {
    seq(|cs|, i requires 0 <= i < |cs| => cs[i].value)
  }

  function WhereText(cs: seq<Comparison>): string {
    Strings.Join(TextsOf(cs), " AND ")
  }

  ghost predicate Built(cs: seq<Comparison>, conditions: seq<string>, args: seq<Value>) {
    conditions == TextsOf(cs) && args == ValuesOf(cs)
  }

  lemma BuiltMore(cs: seq<Comparison>, conditions: seq<string>, args: seq<Value>, more: seq<Comparison>)
    requires Built(cs, conditions, args)
    ensures Built(cs + more, conditions + TextsOf(more), args + ValuesOf(more))
  {
  }

  method BuildScope(scope: Scope) returns (conditions: seq<string>, args: seq<Value>)
    ensures Built(ScopeComparisons(scope), conditions, args)
  {
    conditions, args := [], [];
    if scope.kind == "" || scope.kind == "platform" {
      return;
    }
    if scope.kind == "Organization" || scope.kind == "Project" || scope.kind == "User" {
      conditions := conditions + ["scope_type = ?", "scope_name = ?"];
      args := args + [Text(scope.kind), Text(scope.name)];
      ScopeTexts();
    }
  }

  lemma ScopeTexts()
    ensures "scope_type" + " " + "=" + " ?" == "scope_type = ?"
    ensures "scope_name" + " " + "=" + " ?" == "scope_name = ?"
  {
  }

  lemma FixedTexts()
    ensures "namespace" + " " + "=" + " ?" == "namespace = ?"
    ensures "last_timestamp" + " " + ">=" + " ?" == "last_timestamp >= ?"
    ensures "last_timestamp" + " " + "<" + " ?" == "last_timestamp < ?"
  {
  }

  method AddNamespace(namespace: string, ghost cs: seq<Comparison>, conditions: seq<string>, args: seq<Value>)
    returns (conditions': seq<string>, args': seq<Value>)
    requires Built(cs, conditions, args)
    ensures Built(cs + NamespaceComparison(namespace), conditions', args')
  {
    conditions', args' := conditions, args;
    if namespace != "" {
      conditions' := conditions' + ["namespace = ?"];
      args' := args' + [Text(namespace)];
      FixedTexts();
      BuiltMore(cs, conditions, args, NamespaceComparison(namespace));
    }
  }

  // What a step makes of the conditions so far, or its error.
  ghost predicate Adds(cs: seq<Comparison>, more: Result<seq<Comparison>, QueryError>,
                       result: Result<(seq<string>, seq<Value>), QueryError>) {
    match more
    case Err(e) => result == Err(e)
    case Ok(cs') => result.Ok? && Built(cs + cs', result.value.0, result.value.1)
  }

  method AddBound(parse: TimeParser, text: string, isEnd: bool, ghost cs: seq<Comparison>, conditions: seq<string>, args: seq<Value>)
    returns (result: Result<(seq<string>, seq<Value>), QueryError>)
    requires Built(cs, conditions, args)
    ensures Adds(cs, Bound(parse, text, if isEnd then "<" else ">=", if isEnd then InvalidEndTime else InvalidStartTime), result)
  {
    if text == "" {
      return Ok((conditions, args));
    }
    var t := parse(text);
    if t.None? {
      return Err(if isEnd then InvalidEndTime else InvalidStartTime);
    }
    FixedTexts();
    BuiltMore(cs, conditions, args, [Comparison("last_timestamp", if isEnd then "<" else ">=", Time(t.value))]);
    result := Ok((conditions + [if isEnd then "last_timestamp < ?" else "last_timestamp >= ?"], args + [Time(t.value)]));
  }

  method AddSelector(selector: string, ghost cs: seq<Comparison>, conditions: seq<string>, args: seq<Value>)
    returns (result: Result<(seq<string>, seq<Value>), QueryError>)
    requires Built(cs, conditions, args)
    ensures Adds(cs, Selection(selector), result)
  {
    if selector == "" {
      assert TermComparisons([]) == [];
      return Ok((conditions, args));
    }
    var terms := FieldSelector.ParseFieldSelector(selector);
    if terms.Err? {
      return Err(InvalidSelector(terms.error));
    }
    var texts, values := FieldSelector.TermsToSQL(terms.value);
    TermTexts(terms.value, texts, values);
    BuiltMore(cs, conditions, args, TermComparisons(terms.value));
    result := Ok((conditions + texts, args + AsText(values)));
  }

  function AsText(values: seq<string>): seq<Value> {
    seq(|values|, i requires 0 <= i < |values| => Text(values[i]))
  }

  lemma TermTexts(ts: seq<FieldSelector.Resolved>, texts: seq<string>, values: seq<string>)
    requires |texts| == |values| == |ts|
    requires forall i :: 0 <= i < |ts| ==> texts[i] == FieldSelector.ToSQL(ts[i]) && values[i] == ts[i].value
    ensures texts == TextsOf(TermComparisons(ts)) && AsText(values) == ValuesOf(TermComparisons(ts))
  {
    forall i | 0 <= i < |ts| ensures texts[i] == TextOf(TermComparison(ts[i])) {
      TermText(ts[i]);
    }
  }

  lemma TermText(t: FieldSelector.Resolved)
    ensures FieldSelector.ToSQL(t) == TextOf(TermComparison(t))
  {
    var sign := TermComparison(t).sign;
    assert " " + sign + " ?" == if t.op.NotEqual? then " != ?" else " = ?";
    assert t.column + " " + sign + " ?" == t.column + (" " + sign + " ?");
  }

  // The WHERE text, empty without conditions, and its arguments.
  method BuildQuery(parse: TimeParser, spec: Spec, scope: Scope) returns (query: Result<(string, seq<Value>), QueryError>)
    ensures match Requested(parse, spec, scope)
      case Err(e) => query == Err(e)
      case Ok(cs) => query == Ok((if cs == [] then "" else " WHERE " + WhereText(cs), ValuesOf(cs)))
  {
    var conditions, args := BuildScope(scope);
    ghost var cs := ScopeComparisons(scope);
    conditions, args := AddNamespace(spec.namespace, cs, conditions, args);
    cs := cs + NamespaceComparison(spec.namespace);
    var started := AddBound(parse, spec.startTime, false, cs, conditions, args);
    if started.Err? {
      return Err(started.error);
    }
    cs := cs + Bound(parse, spec.startTime, ">=", InvalidStartTime).value;
    var ended := AddBound(parse, spec.endTime, true, cs, started.value.0, started.value.1);
    if ended.Err? {
      return Err(ended.error);
    }
    cs := cs + Bound(parse, spec.endTime, "<", InvalidEndTime).value;
    var selected := AddSelector(spec.fieldSelector, cs, ended.value.0, ended.value.1);
    if selected.Err? {
      return Err(selected.error);
    }
    cs := cs + Selection(spec.fieldSelector).value;
    conditions, args := selected.value.0, selected.value.1;
    query := Ok((if |conditions| > 0 then " WHERE " + Strings.Join(conditions, " AND ") else "", args));
  }

  // ---------------------------------------------------------------------
  // What the text selects
  // ---------------------------------------------------------------------

  // A comparison's text as words.
  function WordsOf(c: Comparison): seq<string> {
    [c.column, c.sign, "?"]
  }

  function Words(cs: seq<Comparison>): seq<string> {
    if cs == [] then [] else if |cs| == 1 then WordsOf(cs[0]) else WordsOf(cs[0]) + ["AND"] + Words(cs[1..])
  }

  // The database's reading of a WHERE text of comparisons with parameters.
  function Read(words: seq<string>): Option<seq<(string, string)>>
    decreases |words|
  {
    if |words| < 3 || words[2] != "?" then None
    else if |words| == 3 then Some([(words[0], words[1])])
    else if words[3] != "AND" then None
    else match Read(words[4..])
      case None => None
      case Some(rest) => Some([(words[0], words[1])] + rest)
  }

  function PairsOf(cs: seq<Comparison>): seq<(string, string)> {
    seq(|cs|, i requires 0 <= i < |cs| => (cs[i].column, cs[i].sign))
  }

  predicate Holds(sign: string, x: Value, y: Value) {
    match sign
    case "=" => x == y
    case "!=" => x != y
    case ">=" => x.Time? && y.Time? && x.t >= y.t
    case "<" => x.Time? && y.Time? && x.t < y.t
    case _ => false
  }

  // The row is kept: the k-th comparison of the text holds with the k-th argument.
  predicate Selects(row: string -> Value, text: string, args: seq<Value>) {
    match Read(Strings.Split(text, ' '))
    case None => false
    case Some(ps) => |ps| == |args| && forall i :: 0 <= i < |ps| ==> Holds(ps[i].1, row(ps[i].0), args[i])
  }

  predicate Passes(row: string -> Value, c: Comparison) {
    Holds(c.sign, row(c.column), c.value)
  }

  predicate Plain(c: Comparison) {
    Strings.Without(c.column, ' ') && Strings.Without(c.sign, ' ')
  }

  lemma {:induction false} ReadWords(cs: seq<Comparison>)
    requires cs != []
    ensures Read(Words(cs)) == Some(PairsOf(cs))
  {
    if |cs| == 1 {
      assert PairsOf(cs) == [(cs[0].column, cs[0].sign)];
    } else {
      ReadWords(cs[1..]);
      assert Words(cs)[4..] == Words(cs[1..]);
      assert PairsOf(cs) == [(cs[0].column, cs[0].sign)] + PairsOf(cs[1..]);
    }
  }

  lemma ComparisonWords(c: Comparison)
    requires Plain(c)
    ensures Strings.Split(TextOf(c), ' ') == WordsOf(c)
  {
    Strings.SplitFree(c.column, ' ');
    Strings.SplitFree(c.sign, ' ');
    Strings.SplitFree("?", ' ');
    Strings.SplitJoined(c.sign, ' ', "?");
    Strings.SplitJoined(c.column, ' ', c.sign + [' '] + "?");
    assert TextOf(c) == c.column + [' '] + (c.sign + [' '] + "?") by {
      assert " ?" == [' '] + "?";
    }
  }

  lemma JoinedWords(a: string, b: string)
    ensures Strings.Split(a + " AND " + b, ' ') == Strings.Split(a, ' ') + ["AND"] + Strings.Split(b, ' ')
  {
    Strings.SplitFree("AND", ' ');
    Strings.SplitJoined("AND", ' ', b);
    Strings.SplitJoined(a, ' ', "AND" + [' '] + b);
    assert a + " AND " + b == a + [' '] + ("AND" + [' '] + b) by {
      assert " AND " == [' '] + "AND" + [' '];
    }
  }

  lemma {:induction false} ClauseWords(cs: seq<Comparison>)
    requires cs != [] && forall i :: 0 <= i < |cs| ==> Plain(cs[i])
    ensures Strings.Split(WhereText(cs), ' ') == Words(cs)
  {
    ComparisonWords(cs[0]);
    if |cs| > 1 {
      ClauseWords(cs[1..]);
      assert TextsOf(cs)[1..] == TextsOf(cs[1..]);
      JoinedWords(TextOf(cs[0]), WhereText(cs[1..]));
    }
  }

  lemma ClauseSelects(row: string -> Value, cs: seq<Comparison>)
    requires cs != [] && forall i :: 0 <= i < |cs| ==> Plain(cs[i])
    ensures Selects(row, WhereText(cs), ValuesOf(cs)) <==> forall i :: 0 <= i < |cs| ==> Passes(row, cs[i])
  {
    ClauseWords(cs);
    ReadWords(cs);
    assert forall i :: 0 <= i < |cs| ==> PairsOf(cs)[i] == (cs[i].column, cs[i].sign) && ValuesOf(cs)[i] == cs[i].value;
  }

  // ---------------------------------------------------------------------
  // Columns
  // ---------------------------------------------------------------------

  lemma MetadataColumnPlain(path: string)
    requires FieldSelector.MetadataColumn(path).Some?
    ensures Strings.Without(FieldSelector.MetadataColumn(path).value, ' ')
  {
  }

  lemma RegardingColumnPlain(path: string)
    requires FieldSelector.RegardingColumn(path).Some?
    ensures Strings.Without(FieldSelector.RegardingColumn(path).value, ' ')
  {
  }

  lemma RelatedColumnPlain(path: string)
    requires FieldSelector.RelatedColumn(path).Some?
    ensures Strings.Without(FieldSelector.RelatedColumn(path).value, ' ')
  {
  }

  lemma OtherColumnPlain(path: string)
    requires FieldSelector.OtherColumn(path).Some?
    ensures Strings.Without(FieldSelector.OtherColumn(path).value, ' ')
  {
  }

  lemma ColumnPlain(path: string)
    requires FieldSelector.Column(path).Some?
    ensures Strings.Without(FieldSelector.Column(path).value, ' ')
  {
    if FieldSelector.MetadataColumn(path).Some? {
      MetadataColumnPlain(path);
    } else if FieldSelector.RegardingColumn(path).Some? {
      RegardingColumnPlain(path);
    } else if FieldSelector.RelatedColumn(path).Some? {
      RelatedColumnPlain(path);
    } else {
      OtherColumnPlain(path);
    }
  }

  predicate TermPlain(t: FieldSelector.Resolved) {
    Strings.Without(t.column, ' ')
  }

  lemma PartPlain(part: string)
    ensures var r := FieldSelector.ParsePart(FieldSelector.ResolveEventFieldSelector, part); r.Ok? ==> TermPlain(r.value)
  {
    var p := FieldSelector.Cut(part);
    if p.Some? && FieldSelector.ResolveEventFieldSelector(Strings.TrimSpace(p.value.field)).Some? {
      ColumnPlain(FieldSelector.Unalias(Strings.TrimSpace(p.value.field)));
    }
  }

  lemma {:induction false} PartsPlain(parts: seq<string>)
    ensures var r := FieldSelector.ParseParts(FieldSelector.ResolveEventFieldSelector, parts);
            r.Ok? ==> forall i :: 0 <= i < |r.value| ==> TermPlain(r.value[i])
  {
    if parts != [] {
      PartsPlain(parts[..|parts| - 1]);
      PartPlain(Strings.TrimSpace(parts[|parts| - 1]));
    }
  }

  lemma FixedPlain()
    ensures Strings.Without("scope_type", ' ') && Strings.Without("scope_name", ' ')
    ensures Strings.Without("namespace", ' ') && Strings.Without("last_timestamp", ' ')
  {
  }

  predicate AllPlain(cs: seq<Comparison>) {
    forall i :: 0 <= i < |cs| ==> Plain(cs[i])
  }

  lemma SelectionPlain(selector: string)
    requires Selection(selector).Ok?
    ensures AllPlain(Selection(selector).value)
  {
    PartsPlain(Strings.Split(selector, ','));
  }

  lemma PlainConcat(a: seq<Comparison>, b: seq<Comparison>)
    requires AllPlain(a) && AllPlain(b)
    ensures AllPlain(a + b)
  {
  }

  lemma RequestedPlain(parse: TimeParser, spec: Spec, scope: Scope)
    requires Requested(parse, spec, scope).Ok?
    ensures AllPlain(Requested(parse, spec, scope).value)
  {
    FixedPlain();
    SelectionPlain(spec.fieldSelector);
    var fixed := ScopeComparisons(scope) + NamespaceComparison(spec.namespace);
    var started := Bound(parse, spec.startTime, ">=", InvalidStartTime).value;
    var ended := Bound(parse, spec.endTime, "<", InvalidEndTime).value;
    PlainConcat(ScopeComparisons(scope), NamespaceComparison(spec.namespace));
    PlainConcat(fixed, started);
    PlainConcat(fixed + started, ended);
    PlainConcat(fixed + started + ended, Selection(spec.fieldSelector).value);
  }

  ghost predicate AllPass(row: string -> Value, cs: seq<Comparison>) {
    forall c :: c in cs ==> Passes(row, c)
  }

  // The row is what the request asks for.
  ghost predicate Answers(parse: TimeParser, spec: Spec, scope: Scope, row: string -> Value)
    requires Requested(parse, spec, scope).Ok?
  {
    && AllPass(row, ScopeComparisons(scope))
    && (spec.namespace != "" ==> row("namespace") == Text(spec.namespace))
    && (spec.startTime != "" ==> row("last_timestamp").Time? && row("last_timestamp").t >= parse(spec.startTime).value)
    && (spec.endTime != "" ==> row("last_timestamp").Time? && row("last_timestamp").t < parse(spec.endTime).value)
    && var ts := FieldSelector.Parse(FieldSelector.ResolveEventFieldSelector, spec.fieldSelector).value;
       forall i :: 0 <= i < |ts| ==> (row(ts[i].column) == Text(ts[i].value) <==> ts[i].op.Equal?)
  }

  lemma PassesAll(row: string -> Value, a: seq<Comparison>, b: seq<Comparison>)
    ensures AllPass(row, a + b) <==> AllPass(row, a) && AllPass(row, b)
  {
  }

  lemma NamespacePasses(row: string -> Value, namespace: string)
    ensures AllPass(row, NamespaceComparison(namespace)) <==> (namespace != "" ==> row("namespace") == Text(namespace))
  {
    if namespace != "" {
      assert NamespaceComparison(namespace)[0] in NamespaceComparison(namespace);
    }
  }

  lemma BoundPasses(row: string -> Value, parse: TimeParser, text: string, sign: string, error: QueryError)
    requires Bound(parse, text, sign, error).Ok? && (sign == ">=" || sign == "<")
    ensures AllPass(row, Bound(parse, text, sign, error).value) <==>
            (text != "" ==> Holds(sign, row("last_timestamp"), Time(parse(text).value)))
  {
    var cs := Bound(parse, text, sign, error).value;
    if text != "" {
      assert cs[0] in cs;
    }
  }

  lemma TermsPass(row: string -> Value, ts: seq<FieldSelector.Resolved>)
    ensures AllPass(row, TermComparisons(ts)) <==>
            forall i :: 0 <= i < |ts| ==> (row(ts[i].column) == Text(ts[i].value) <==> ts[i].op.Equal?)
  {
    forall i | 0 <= i < |ts|
      ensures Passes(row, TermComparison(ts[i])) <==> (row(ts[i].column) == Text(ts[i].value) <==> ts[i].op.Equal?)
    {
    }
    assert forall i :: 0 <= i < |ts| ==> TermComparisons(ts)[i] == TermComparison(ts[i]);
    forall i | 0 <= i < |ts| ensures TermComparison(ts[i]) in TermComparisons(ts) {
      assert TermComparisons(ts)[i] == TermComparison(ts[i]);
    }
  }

  lemma AllPassAnswers(parse: TimeParser, spec: Spec, scope: Scope, row: string -> Value)
    requires Requested(parse, spec, scope).Ok?
    ensures AllPass(row, Requested(parse, spec, scope).value) <==> Answers(parse, spec, scope, row)
  {
    var scoped, named := ScopeComparisons(scope), NamespaceComparison(spec.namespace);
    var started := Bound(parse, spec.startTime, ">=", InvalidStartTime).value;
    var ended := Bound(parse, spec.endTime, "<", InvalidEndTime).value;
    var ts := FieldSelector.Parse(FieldSelector.ResolveEventFieldSelector, spec.fieldSelector).value;
    PassesAll(row, scoped, named);
    PassesAll(row, scoped + named, started);
    PassesAll(row, scoped + named + started, ended);
    PassesAll(row, scoped + named + started + ended, TermComparisons(ts));
    NamespacePasses(row, spec.namespace);
    BoundPasses(row, parse, spec.startTime, ">=", InvalidStartTime);
    BoundPasses(row, parse, spec.endTime, "<", InvalidEndTime);
    TermsPass(row, ts);
  }

  // The query's text with its arguments selects the rows that satisfy the
  // scope, the namespace, the time range and every term of the selector.
  lemma QuerySelects(parse: TimeParser, spec: Spec, scope: Scope, row: string -> Value)
    requires Requested(parse, spec, scope).Ok? && Requested(parse, spec, scope).value != []
    ensures var cs := Requested(parse, spec, scope).value;
            Selects(row, WhereText(cs), ValuesOf(cs)) <==> Answers(parse, spec, scope, row)
  {
    var cs := Requested(parse, spec, scope).value;
    RequestedPlain(parse, spec, scope);
    ClauseSelects(row, cs);
    assert (forall i :: 0 <= i < |cs| ==> Passes(row, cs[i])) <==> AllPass(row, cs);
    AllPassAnswers(parse, spec, scope, row);
  }
}
