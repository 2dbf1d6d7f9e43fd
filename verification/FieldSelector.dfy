/**
 Field selectors of event queries: printing terms from command line flags,
 parsing them back, and the SQL conditions they become.
 */
module FieldSelector {
  import opened Prelude
  import opened Strings

  datatype Operator = Equal | NotEqual

  datatype Term = Term(field: string, op: Operator, value: string)

  datatype Resolved = Resolved(column: string, op: Operator, value: string)

  datatype SelectorError = InvalidSyntax(part: string) | UnsupportedField(field: string)

  // ---------------------------------------------------------------------
  // Fields
  // ---------------------------------------------------------------------

  function Unalias(field: string): string {
    match field
    case "namespace" => "metadata.namespace"
    case "name" => "metadata.name"
    case "uid" => "metadata.uid"
    case _ => field
  }

  function MetadataColumn(path: string): Option<string> {
    match path
    case "metadata.namespace" => Some("namespace")
    case "metadata.name" => Some("name")
    case "metadata.uid" => Some("uid")
    case _ => None
  }

  function RegardingColumn(path: string): Option<string> {
    match path
    case "regarding.apiVersion" => Some("regarding_api_version")
    case "regarding.kind" => Some("regarding_kind")
    case "regarding.namespace" => Some("regarding_namespace")
    case "regarding.name" => Some("regarding_name")
    case "regarding.uid" => Some("regarding_uid")
    case "regarding.fieldPath" => Some("regarding_field_path")
    case _ => None
  }

  function RelatedColumn(path: string): Option<string> {
    match path
    case "related.apiVersion" => Some("related_api_version")
    case "related.kind" => Some("related_kind")
    case "related.namespace" => Some("related_namespace")
    case "related.name" => Some("related_name")
    case _ => None
  }

  function OtherColumn(path: string): Option<string> {
    match path
    case "reason" => Some("reason")
    case "type" => Some("type")
    case "source.component" => Some("source_component")
    case "source.host" => Some("source_host")
    case "reportingComponent" => Some("source_component")
    case "reportingInstance" => Some("source_host")
    case _ => None
  }

  function Column(path: string): Option<string> {
    if MetadataColumn(path).Some? then MetadataColumn(path)
    else if RegardingColumn(path).Some? then RegardingColumn(path)
    else if RelatedColumn(path).Some? then RelatedColumn(path)
    else OtherColumn(path)
  }

  function ResolveEventFieldSelector(field: string): Option<string> {
    Column(Unalias(field))
  }

  predicate PathChar(c: char) {
    'a' <= c <= 'z' || 'A' <= c <= 'Z' || c == '.'
  }

  predicate IsPath(s: string) {
    s != "" && forall i :: 0 <= i < |s| ==> PathChar(s[i])
  }

  lemma RegardingPath(path: string)
    requires RegardingColumn(path).Some?
    ensures IsPath(path)
  {
  }

  lemma RelatedPath(path: string)
    requires RelatedColumn(path).Some?
    ensures IsPath(path)
  {
  }

  lemma OtherPath(path: string)
    requires OtherColumn(path).Some?
    ensures IsPath(path)
  {
  }

  lemma ColumnPath(path: string)
    requires Column(path).Some?
    ensures IsPath(path)
  {
    if MetadataColumn(path).Some? {
    } else if RegardingColumn(path).Some? {
      RegardingPath(path);
    } else if RelatedColumn(path).Some? {
      RelatedPath(path);
    } else {
      OtherPath(path);
    }
  }

  // A supported field is a path of letters and dots.
  lemma SupportedIsPath(field: string)
    requires ResolveEventFieldSelector(field).Some?
    ensures IsPath(field)
  {
    if Unalias(field) == field {
      ColumnPath(field);
    }
  }

  // The short forms name the columns of their full paths.
  lemma AliasesAgree(field: string)
    ensures Unalias(Unalias(field)) == Unalias(field)
    ensures ResolveEventFieldSelector(field) == ResolveEventFieldSelector(Unalias(field))
  {
  }

  // ---------------------------------------------------------------------
  // Parsing
  // ---------------------------------------------------------------------

  type Resolver = string -> Option<string>

  // What is known of the supported fields.
  ghost predicate OnlyPaths(resolve: Resolver) {
    forall field :: resolve(field).Some? ==> IsPath(field)
  }

  function Named(resolve: Resolver, field: string, op: Operator, value: string): Result<Resolved, SelectorError> {
    match resolve(TrimSpace(field))
    case None => Err(UnsupportedField(TrimSpace(field)))
    case Some(column) => Ok(Resolved(column, op, TrimSpace(value)))
  }

  datatype Pieces = Pieces(field: string, op: Operator, value: string)

  // != before ==, and == before =.
  function Cut(part: string): Option<Pieces> {
    var ne, ee, e := Index(part, "!="), Index(part, "=="), Index(part, "=");
    if ne != -1 then Some(Pieces(part[..ne], NotEqual, part[ne + 2..]))
    else if ee != -1 then Some(Pieces(part[..ee], Equal, part[ee + 2..]))
    else if e != -1 then Some(Pieces(part[..e], Equal, part[e + 1..]))
    else None
  }

  // One trimmed, non-empty part.
  function ParsePart(resolve: Resolver, part: string): Result<Resolved, SelectorError> {
    match Cut(part)
    case None => Err(InvalidSyntax(part))
    case Some(p) => Named(resolve, p.field, p.op, p.value)
  }

  function OneMore(resolve: Resolver, some: Result<seq<Resolved>, SelectorError>, text: string): Result<seq<Resolved>, SelectorError> {
    var part := TrimSpace(text);
    if some.Err? || part == "" then some
    else match ParsePart(resolve, part)
      case Err(e) => Err(e)
      case Ok(t) => Ok(some.value + [t])
  }

  function ParseParts(resolve: Resolver, parts: seq<string>): Result<seq<Resolved>, SelectorError> {
    if parts == [] then Ok([])
    else OneMore(resolve, ParseParts(resolve, parts[..|parts| - 1]), parts[|parts| - 1])
  }

  function Parse(resolve: Resolver, selector: string): Result<seq<Resolved>, SelectorError> {
    if selector == "" then Ok([]) else ParseParts(resolve, Split(selector, ','))
  }

  lemma {:induction false} FirstErrorStays(resolve: Resolver, parts: seq<string>, i: nat)
    requires i <= |parts| && ParseParts(resolve, parts[..i]).Err?
    ensures ParseParts(resolve, parts) == ParseParts(resolve, parts[..i])
    decreases |parts|
  {
    if i == |parts| {
      assert parts[..i] == parts;
    } else {
      var n := |parts| - 1;
      assert parts[..n][..i] == parts[..i];
      FirstErrorStays(resolve, parts[..n], i);
    }
  }

  method ParseFieldSelector(selector: string) returns (result: Result<seq<Resolved>, SelectorError>)
    ensures result == Parse(ResolveEventFieldSelector, selector)
  {
    if selector == "" {
      return Ok([]);
    }
    var parts := Split(selector, ',');
    var terms := [];
    for i := 0 to |parts|
      invariant ParseParts(ResolveEventFieldSelector, parts[..i]) == Ok(terms)
    {
      assert parts[..i + 1][..i] == parts[..i];
      var part := TrimSpace(parts[i]);
      if part == "" {
        continue;
      }
      var term := ParsePart(ResolveEventFieldSelector, part);
      if term.Err? {
        FirstErrorStays(ResolveEventFieldSelector, parts, i + 1);
        return Err(term.error);
      }
      terms := terms + [term.value];
    }
    assert parts[..|parts|] == parts;
    result := Ok(terms);
  }

  // ---------------------------------------------------------------------
  // Printing
  // ---------------------------------------------------------------------

  function Spelling(op: Operator): string {
    if op.Equal? then "=" else "!="
  }

  function PrintTerm(t: Term): string {
    t.field + Spelling(t.op) + t.value
  }

  function PrintTerms(ts: seq<Term>): seq<string> {
    seq(|ts|, i requires 0 <= i < |ts| => PrintTerm(ts[i]))
  }

  function Print(ts: seq<Term>): string {
    Join(PrintTerms(ts), ",")
  }

  predicate Occurs(s: string, p: string) {
    Index(s, p) != -1
  }

  // Values that survive printing: trimmed, without a comma, and after = with
  // nothing that reads as another operator.
  predicate Printable(op: Operator, value: string) {
    TrimSpace(value) == value && Without(value, ',') &&
    (op.Equal? ==> !Occurs(value, "!=") && !Occurs("=" + value, "=="))
  }

  function Meant(resolve: Resolver, t: Term): Resolved
    requires resolve(t.field).Some?
  {
    Resolved(resolve(t.field).value, t.op, t.value)
  }

  // Where an operator that starts with a character no field has first occurs
  // in field + rest.
  lemma FirstInRest(field: string, rest: string, p: string)
    requires IsPath(field) && p != "" && (p[0] == '=' || p[0] == '!')
    ensures Index(field + rest, p) == if Index(rest, p) == -1 then -1 else |field| + Index(rest, p)
  {
    var s, i := field + rest, Index(rest, p);
    forall j | 0 <= j < |field| ensures !OccursAt(s, p, j) {
      assert PathChar(field[j]) && s[j] == field[j];
      assert j + |p| <= |s| ==> s[j..j + |p|][0] == s[j];
    }
    ShiftedOccurrences(field, rest, p);
    IndexIsFirst(rest, p);
    IndexIsFirst(s, p);
    var k := if i == -1 then -1 else |field| + i;
    assert IsFirst(s, p, k);
  }

  lemma ShiftedOccurrences(a: string, b: string, p: string)
    ensures forall j :: |a| <= j <= |a + b| ==> (OccursAt(a + b, p, j) <==> OccursAt(b, p, j - |a|))
  {
    forall j | |a| <= j <= |a + b| ensures OccursAt(a + b, p, j) <==> OccursAt(b, p, j - |a|) {
      if j + |p| <= |a + b| {
        assert (a + b)[j..j + |p|] == b[j - |a|..j - |a| + |p|];
      }
    }
  }

  // Trimming a printed term trims its value's end.
  lemma TrimPrinted(field: string, op: string, value: string)
    requires IsPath(field) && op != "" && !IsSpace(op[|op| - 1])
    ensures TrimSpace(field + op + value) == field + op + TrimRight(value)
  {
    var a := field + op;
    assert a[|a| - 1] == op[|op| - 1];
    TrimRightAfter(a, value);
    assert PathChar(field[0]) && (a + TrimRight(value))[0] == field[0];
  }

  // ---------------------------------------------------------------------
  // Round trip
  // ---------------------------------------------------------------------

  lemma NoOperatorInPath(field: string, rest: string)
    requires rest != "" && rest[0] == '='
    ensures !IsPath(field + rest)
  {
    assert (field + rest)[|field|] == '=';
  }

  // A field part that still holds an operator is not supported.
  lemma OperatorInField(resolve: Resolver, field: string, rest: string, op: Operator, value: string)
    requires OnlyPaths(resolve)
    requires IsPath(field) && rest != "" && rest[0] == '='
    ensures Named(resolve, field + rest, op, value).Err?
  {
    var s := field + rest;
    TrimRightAfter(field + "=", rest[1..]);
    assert field + "=" + rest[1..] == s;
    assert TrimRight(s)[0] == field[0] && PathChar(field[0]);
    assert TrimSpace(s) == field + ("=" + TrimRight(rest[1..]));
    NoOperatorInPath(field, "=" + TrimRight(rest[1..]));
  }

  lemma NotEqualPart(resolve: Resolver, field: string, value: string)
    requires OnlyPaths(resolve)
    requires resolve(field).Some?
    ensures ParsePart(resolve, TrimSpace(field + "!=" + value)) ==
            Ok(Resolved(resolve(field).value, NotEqual, TrimSpace(value)))
  {
    assert IsPath(field);
    TrimPrinted(field, "!=", value);
    TrimSpaceShape(value);
    var v := TrimRight(value);
    var part := field + "!=" + v;
    FirstInRest(field, "!=" + v, "!=");
    assert part == field + ("!=" + v);
    assert part[..|field|] == field && part[|field| + 2..] == v;
  }

  lemma EqualIndexes(field: string, v: string)
    requires IsPath(field)
    ensures var part, w := field + ("=" + v), "=" + v;
            Index(part, "!=") == (if Index(w, "!=") == -1 then -1 else |field| + Index(w, "!=")) &&
            Index(part, "==") == (if Index(w, "==") == -1 then -1 else |field| + Index(w, "==")) &&
            Index(part, "=") == |field|
  {
    var w := "=" + v;
    FirstInRest(field, w, "!=");
    FirstInRest(field, w, "==");
    FirstInRest(field, w, "=");
  }

  lemma Slices(a: string, b: string, i: nat, n: nat)
    requires i + n <= |b|
    ensures (a + b)[..|a| + i] == a + b[..i] && (a + b)[|a| + i + n..] == b[i + n..]
  {
  }

  // How a part printed with = is cut, w being what follows the field.
  function CutEqual(field: string, w: string): Pieces
    requires w != ""
  {
    if Occurs(w, "!=") then Pieces(field + w[..Index(w, "!=")], NotEqual, w[Index(w, "!=") + 2..])
    else if Occurs(w, "==") then Pieces(field + w[..Index(w, "==")], Equal, w[Index(w, "==") + 2..])
    else Pieces(field, Equal, w[1..])
  }

  function ReadEqual(resolve: Resolver, field: string, w: string): Result<Resolved, SelectorError>
    requires w != ""
  {
    var p := CutEqual(field, w);
    Named(resolve, p.field, p.op, p.value)
  }

  lemma TrimmedEqual(field: string, value: string)
    requires IsPath(field)
    ensures TrimSpace(field + "=" + value) == field + ("=" + TrimRight(value))
  {
    TrimPrinted(field, "=", value);
  }

  lemma CutsAt(field: string, w: string, part: string)
    requires w != "" && part == field + w
    requires Index(part, "!=") == if Index(w, "!=") == -1 then -1 else |field| + Index(w, "!=")
    requires Index(part, "==") == if Index(w, "==") == -1 then -1 else |field| + Index(w, "==")
    requires Index(part, "=") == |field|
    ensures Cut(part) == Some(CutEqual(field, w))
  {
    if Occurs(w, "!=") {
      Slices(field, w, Index(w, "!="), 2);
    } else if Occurs(w, "==") {
      Slices(field, w, Index(w, "=="), 2);
    } else {
      Slices(field, w, 0, 1);
      assert field + w[..0] == field;
    }
  }

  lemma NotEqualInside(v: string)
    ensures Index("=" + v, "!=") == if Index(v, "!=") == -1 then -1 else 1 + Index(v, "!=")
  {
    var s, i := "=" + v, Index(v, "!=");
    assert |s| >= 2 ==> s[0..2][0] == '=';
    ShiftedOccurrences("=", v, "!=");
    IndexIsFirst(v, "!=");
    IndexIsFirst(s, "!=");
    var k := if i == -1 then -1 else 1 + i;
    assert IsFirst(s, "!=", k);
  }

  // One printed term reads back exactly when its value is printable.
  lemma TermRoundTrip(resolve: Resolver, t: Term)
    requires OnlyPaths(resolve)
    requires resolve(t.field).Some? && Without(t.value, ',')
    ensures ParsePart(resolve, TrimSpace(PrintTerm(t))) == Ok(Meant(resolve, t)) <==> Printable(t.op, t.value)
  {
    if t.op.NotEqual? {
      NotEqualPart(resolve, t.field, t.value);
    } else {
      EqualTermRoundTrip(resolve, t);
    }
  }

  lemma TrimmedIsWhole(value: string)
    ensures TrimSpace(value) == value ==> TrimRight(value) == value
    ensures TrimSpace(TrimRight(value)) == TrimSpace(value) && |TrimRight(value)| <= |value|
  {
    TrimRightShape(value);
    TrimSpaceShape(value);
    TrimLeftShape(TrimRight(value));
  }

  lemma EqualTermRoundTrip(resolve: Resolver, t: Term)
    requires OnlyPaths(resolve)
    requires resolve(t.field).Some? && Without(t.value, ',') && t.op.Equal?
    ensures ParsePart(resolve, TrimSpace(PrintTerm(t))) == Ok(Meant(resolve, t)) <==> Printable(Equal, t.value)
  {
    assert IsPath(t.field);
    var v := TrimRight(t.value);
    TrimmedEqual(t.field, t.value);
    assert PrintTerm(t) == t.field + "=" + t.value;
    TrimmedIsWhole(t.value);
    EqualIndexes(t.field, v);
    CutsAt(t.field, "=" + v, t.field + ("=" + v));
    ReadBack(resolve, t.field, v);
    NotEqualInside(t.value);
  }

  // A value that brings in an operator is never read as itself.
  lemma ReadBack(resolve: Resolver, field: string, v: string)
    requires OnlyPaths(resolve) && resolve(field).Some?
    ensures var w, r := "=" + v, ReadEqual(resolve, field, "=" + v);
            if Occurs(w, "!=") then r.Err?
            else if Occurs(w, "==") then r.Err? || |r.value.value| < |v|
            else r == Ok(Resolved(resolve(field).value, Equal, TrimSpace(v)))
  {
    assert IsPath(field);
    var w := "=" + v;
    if Occurs(w, "!=") {
      NotEqualInside(v);
      OperatorInField(resolve, field, w[..Index(w, "!=")], NotEqual, w[Index(w, "!=") + 2..]);
    } else if Occurs(w, "==") {
      SecondEquals(resolve, field, v);
    } else {
      assert w[1..] == v;
    }
  }

  // After the = of the print, an = at once leaves a shorter value, and a later
  // == leaves an operator in the field.
  lemma SecondEquals(resolve: Resolver, field: string, v: string)
    requires OnlyPaths(resolve)
    requires IsPath(field) && Occurs("=" + v, "==")
    ensures var i := Index("=" + v, "==");
            var r := Named(resolve, field + ("=" + v)[..i], Equal, ("=" + v)[i + 2..]);
            r.Err? || |r.value.value| < |v|
  {
    var i := Index("=" + v, "==");
    if i == 0 {
      TrimSpaceShape(("=" + v)[2..]);
    } else {
      assert ("=" + v)[..i][0] == '=';
      OperatorInField(resolve, field, ("=" + v)[..i], Equal, ("=" + v)[i + 2..]);
    }
  }

  ghost predicate AllSupported(resolve: Resolver, ts: seq<Term>) {
    forall i :: 0 <= i < |ts| ==> resolve(ts[i].field).Some?
  }

  ghost predicate AllPrintable(ts: seq<Term>) {
    forall i :: 0 <= i < |ts| ==> Printable(ts[i].op, ts[i].value)
  }

  ghost predicate NoCommas(ts: seq<Term>) {
    forall i :: 0 <= i < |ts| ==> Without(ts[i].value, ',')
  }

  lemma MeaningsSnoc(resolve: Resolver, ts: seq<Term>)
    requires AllSupported(resolve, ts) && NoCommas(ts) && ts != []
    ensures AllSupported(resolve, ts[..|ts| - 1])
    ensures Meanings(resolve, ts) == Meanings(resolve, ts[..|ts| - 1]) + [Meant(resolve, ts[|ts| - 1])]
  {
  }

  function Meanings(resolve: Resolver, ts: seq<Term>): seq<Resolved>
    requires forall i :: 0 <= i < |ts| ==> resolve(ts[i].field).Some?
  {
    seq(|ts|, i requires 0 <= i < |ts| => Meant(resolve, ts[i]))
  }

  lemma PrintedNotEmpty(resolve: Resolver, t: Term)
    requires OnlyPaths(resolve)
    requires resolve(t.field).Some?
    ensures TrimSpace(PrintTerm(t)) != "" && (Without(t.value, ',') ==> Without(PrintTerm(t), ','))
  {
    assert IsPath(t.field);
    TrimPrinted(t.field, Spelling(t.op), t.value);
  }

  lemma PrintableSnoc(ts: seq<Term>)
    requires ts != []
    ensures var n := |ts| - 1;
            AllPrintable(ts) <==> AllPrintable(ts[..n]) && Printable(ts[n].op, ts[n].value)
  {
    var n := |ts| - 1;
    assert forall i :: 0 <= i < n ==> ts[..n][i] == ts[i];
  }

  lemma ParseSnoc(resolve: Resolver, ts: seq<Term>)
    requires OnlyPaths(resolve) && AllSupported(resolve, ts) && ts != []
    ensures var n := |ts| - 1;
            var some, one := ParseParts(resolve, PrintTerms(ts[..n])), ParsePart(resolve, TrimSpace(PrintTerm(ts[n])));
            ParseParts(resolve, PrintTerms(ts)) ==
            if some.Err? then some else if one.Err? then Err(one.error) else Ok(some.value + [one.value])
  {
    var n := |ts| - 1;
    PrintedNotEmpty(resolve, ts[n]);
    assert PrintTerms(ts)[..n] == PrintTerms(ts[..n]);
  }

  lemma {:induction false} PartsRoundTrip(resolve: Resolver, ts: seq<Term>)
    requires OnlyPaths(resolve)
    requires AllSupported(resolve, ts) && NoCommas(ts)
    ensures ParseParts(resolve, PrintTerms(ts)) == Ok(Meanings(resolve, ts)) <==> AllPrintable(ts)
  {
    if ts == [] {
      assert PrintTerms(ts) == [] && Meanings(resolve, ts) == [];
    } else {
      var n := |ts| - 1;
      PartsRoundTrip(resolve, ts[..n]);
      TermRoundTrip(resolve, ts[n]);
      ParseSnoc(resolve, ts);
      PrintableSnoc(ts);
      MeaningsSnoc(resolve, ts);
      SnocRoundTrip(ParseParts(resolve, PrintTerms(ts[..n])), ParsePart(resolve, TrimSpace(PrintTerm(ts[n]))),
                    Meanings(resolve, ts[..n]), Meant(resolve, ts[n]));
    }
  }

  lemma SnocRoundTrip(some: Result<seq<Resolved>, SelectorError>, one: Result<Resolved, SelectorError>,
                      ts: seq<Resolved>, t: Resolved)
    ensures (if some.Err? then some else if one.Err? then Err(one.error) else Ok(some.value + [one.value])) == Ok(ts + [t])
            <==> some == Ok(ts) && one == Ok(t)
  {
    if some.Ok? && one.Ok? && some.value + [one.value] == ts + [t] {
      var both := ts + [t];
      assert |some.value| == |ts|;
      assert both[..|ts|] == ts && both[..|ts|] == some.value && both[|ts|] == t == one.value;
    }
  }

  // Printing any terms and parsing the result gives back the same columns,
  // operators and values exactly when every value is printable.
  lemma RoundTrip(resolve: Resolver, ts: seq<Term>)
    requires OnlyPaths(resolve)
    requires AllSupported(resolve, ts) && ts != []
    ensures Parse(resolve, Print(ts)) == Ok(Meanings(resolve, ts)) <==> AllPrintable(ts)
  {
    if NoCommas(ts) {
      forall i | 0 <= i < |ts| ensures Without(PrintTerms(ts)[i], ',') {
        PrintedNotEmpty(resolve, ts[i]);
      }
      SplitOfJoin(PrintTerms(ts), ',');
      PartsRoundTrip(resolve, ts);
    } else {
      var i :| 0 <= i < |ts| && !Without(ts[i].value, ',');
      assert !Printable(ts[i].op, ts[i].value);
      ParsedWithoutComma(resolve, Print(ts));
      assert Meanings(resolve, ts)[i].value == ts[i].value;
    }
  }

  lemma ParsedWithoutComma(resolve: Resolver, selector: string)
    ensures Parse(resolve, selector).Ok? ==>
              forall i :: 0 <= i < |Parse(resolve, selector).value| ==> Without(Parse(resolve, selector).value[i].value, ',')
  {
    if selector != "" {
      SplitParts(selector, ',');
      PartsWithoutComma(resolve, Split(selector, ','));
    }
  }

  lemma {:induction false} PartsWithoutComma(resolve: Resolver, parts: seq<string>)
    requires forall i :: 0 <= i < |parts| ==> Without(parts[i], ',')
    ensures ParseParts(resolve, parts).Ok? ==>
              forall i :: 0 <= i < |ParseParts(resolve, parts).value| ==> Without(ParseParts(resolve, parts).value[i].value, ',')
  {
    if parts != [] {
      var n := |parts| - 1;
      PartsWithoutComma(resolve, parts[..n]);
      TrimKeepsWithout(parts[n], ',');
      PartWithoutComma(resolve, TrimSpace(parts[n]));
    }
  }

  lemma PartWithoutComma(resolve: Resolver, part: string)
    requires Without(part, ',')
    ensures ParsePart(resolve, part).Ok? ==> Without(ParsePart(resolve, part).value.value, ',')
  {
    var ne, ee, e := Index(part, "!="), Index(part, "=="), Index(part, "=");
    if ne != -1 {
      TrimKeepsWithout(part[ne + 2..], ',');
    } else if ee != -1 {
      TrimKeepsWithout(part[ee + 2..], ',');
    } else if e != -1 {
      TrimKeepsWithout(part[e + 1..], ',');
    }
  }

  // For the fields that event queries support.
  lemma SelectorRoundTrip(ts: seq<Term>)
    requires ts != [] && AllSupported(ResolveEventFieldSelector, ts)
    ensures Parse(ResolveEventFieldSelector, Print(ts)) == Ok(Meanings(ResolveEventFieldSelector, ts)) <==> AllPrintable(ts)
  {
    forall field | ResolveEventFieldSelector(field).Some? ensures IsPath(field) {
      SupportedIsPath(field);
    }
    RoundTrip(ResolveEventFieldSelector, ts);
  }

  // ---------------------------------------------------------------------
  // The command line printer
  // ---------------------------------------------------------------------

  // The shorthand flags of the events command.
  datatype EventsOptions = EventsOptions(
    eventType: string,
    reason: string,
    regardingKind: string,
    regardingName: string,
    fieldSelector: string)

  function Flag(field: string, value: string): seq<Term> {
    if value == "" then [] else [Term(field, Equal, value)]
  }

  function FlagTerms(o: EventsOptions): seq<Term> {
    Flag("type", o.eventType) + Flag("reason", o.reason) + Flag("regarding.kind", o.regardingKind) +
    Flag("regarding.name", o.regardingName)
  }

  method AddFlag(selectors: seq<string>, ghost ts: seq<Term>, field: string, value: string) returns (selectors': seq<string>)
    requires selectors == PrintTerms(ts)
    ensures selectors' == PrintTerms(ts + Flag(field, value))
  {
    selectors' := selectors;
    assert ts + [] == ts;
    if value != "" {
      selectors' := selectors + [field + "=" + value];
    }
  }

  method BuildFieldSelector(o: EventsOptions) returns (selector: string)
    ensures var flags := PrintTerms(FlagTerms(o));
            selector == Join(if o.fieldSelector == "" then flags else flags + [o.fieldSelector], ",")
  {
    var selectors := [];
    selectors := AddFlag(selectors, [], "type", o.eventType);
    ghost var ts := [] + Flag("type", o.eventType);
    selectors := AddFlag(selectors, ts, "reason", o.reason);
    ts := ts + Flag("reason", o.reason);
    selectors := AddFlag(selectors, ts, "regarding.kind", o.regardingKind);
    ts := ts + Flag("regarding.kind", o.regardingKind);
    selectors := AddFlag(selectors, ts, "regarding.name", o.regardingName);
    assert ts + Flag("regarding.name", o.regardingName) == FlagTerms(o);
    if o.fieldSelector != "" {
      selectors := selectors + [o.fieldSelector];
    }
    selector := Join(selectors, ",");
  }

  // EscapeFieldSelectorValue
  predicate Escapable(value: string) {
    Without(value, '=') && Without(value, ',')
  }

  predicate Validated(o: EventsOptions) {
    (o.eventType == "" || o.eventType == "Normal" || o.eventType == "Warning") &&
    Escapable(o.reason) && Escapable(o.regardingKind) && Escapable(o.regardingName)
  }

  predicate Trimmed(o: EventsOptions) {
    TrimSpace(o.reason) == o.reason && TrimSpace(o.regardingKind) == o.regardingKind &&
    TrimSpace(o.regardingName) == o.regardingName
  }

  // A value that passes validation is printable when it is trimmed.
  lemma EscapableIsPrintable(value: string)
    requires Escapable(value)
    ensures Printable(Equal, value) <==> TrimSpace(value) == value
  {
    NoOperatorIn(value);
  }

  lemma NoOperatorIn(value: string)
    requires Without(value, '=')
    ensures !Occurs(value, "!=") && !Occurs("=" + value, "==")
  {
    IndexIsFirst(value, "!=");
    IndexIsFirst("=" + value, "==");
    NotAt(value, "!=", Index(value, "!="));
    NotAt("=" + value, "==", Index("=" + value, "=="));
  }

  // An operator ends in an = that is not the first character.
  lemma NotAt(s: string, p: string, i: int)
    requires |p| == 2 && p[1] == '=' && forall j :: 1 <= j < |s| ==> s[j] != '='
    requires -1 <= i
    ensures !OccursAt(s, p, i)
  {
    assert 0 <= i <= |s| - 2 ==> s[i..i + 2][1] == s[i + 1];
  }

  lemma FlagsPrintable(o: EventsOptions)
    requires Validated(o)
    ensures AllPrintable(FlagTerms(o)) <==> Trimmed(o)
  {
    EscapableIsPrintable(o.eventType);
    EscapableIsPrintable(o.reason);
    EscapableIsPrintable(o.regardingKind);
    EscapableIsPrintable(o.regardingName);
    PrintableConcat(Flag("type", o.eventType), Flag("reason", o.reason));
    PrintableConcat(Flag("type", o.eventType) + Flag("reason", o.reason), Flag("regarding.kind", o.regardingKind));
    PrintableConcat(Flag("type", o.eventType) + Flag("reason", o.reason) + Flag("regarding.kind", o.regardingKind),
                    Flag("regarding.name", o.regardingName));
    FlagPrintable("type", o.eventType);
    FlagPrintable("reason", o.reason);
    FlagPrintable("regarding.kind", o.regardingKind);
    FlagPrintable("regarding.name", o.regardingName);
  }

  lemma FlagPrintable(field: string, value: string)
    ensures AllPrintable(Flag(field, value)) <==> value == "" || Printable(Equal, value)
  {
    if value != "" {
      assert Flag(field, value)[0] == Term(field, Equal, value);
    }
  }

  lemma PrintableConcat(a: seq<Term>, b: seq<Term>)
    ensures AllPrintable(a + b) <==> AllPrintable(a) && AllPrintable(b)
  {
    if AllPrintable(a + b) {
      forall i | 0 <= i < |a| ensures Printable(a[i].op, a[i].value) {
        assert (a + b)[i] == a[i];
      }
      forall i | 0 <= i < |b| ensures Printable(b[i].op, b[i].value) {
        assert (a + b)[|a| + i] == b[i];
      }
    }
  }

  // The flags that pass validation reach the server as meant exactly when
  // they are trimmed, which validation does not ask.
  lemma ValidatedFlagsArrive(o: EventsOptions)
    requires Validated(o) && FlagTerms(o) != [] && o.fieldSelector == ""
    ensures AllSupported(ResolveEventFieldSelector, FlagTerms(o))
    ensures Parse(ResolveEventFieldSelector, Print(FlagTerms(o))) == Ok(Meanings(ResolveEventFieldSelector, FlagTerms(o))) <==>
            Trimmed(o)
  {
    SelectorRoundTrip(FlagTerms(o));
    FlagsPrintable(o);
  }

  function Combined(a: Result<seq<Resolved>, SelectorError>, b: Result<seq<Resolved>, SelectorError>)
    : Result<seq<Resolved>, SelectorError>
  {
    if a.Err? then a else if b.Err? then b else Ok(a.value + b.value)
  }

  lemma {:induction false} PartsConcat(resolve: Resolver, a: seq<string>, b: seq<string>)
    ensures ParseParts(resolve, a + b) == Combined(ParseParts(resolve, a), ParseParts(resolve, b))
  {
    if b == [] {
      assert a + b == a;
      assert ParseParts(resolve, a).Ok? ==> ParseParts(resolve, a).value + [] == ParseParts(resolve, a).value;
    } else {
      var n := |b| - 1;
      PartsConcat(resolve, a, b[..n]);
      OneMoreCombined(resolve, ParseParts(resolve, a), ParseParts(resolve, b[..n]), b[n]);
      assert (a + b)[..|a| + n] == a + b[..n] && (a + b)[|a| + n] == b[n];
    }
  }

  lemma OneMoreCombined(resolve: Resolver, a: Result<seq<Resolved>, SelectorError>,
                        b: Result<seq<Resolved>, SelectorError>, text: string)
    ensures OneMore(resolve, Combined(a, b), text) == Combined(a, OneMore(resolve, b, text))
  {
    if a.Ok? && b.Ok? && ParsePart(resolve, TrimSpace(text)).Ok? {
      var t := ParsePart(resolve, TrimSpace(text)).value;
      assert a.value + b.value + [t] == a.value + (b.value + [t]);
    }
  }

  lemma {:induction false} JoinSnoc(xs: seq<string>, sep: string, y: string)
    requires xs != []
    ensures Join(xs + [y], sep) == Join(xs, sep) + sep + y
  {
    assert (xs + [y])[1..] == xs[1..] + [y];
    if |xs| > 1 {
      JoinSnoc(xs[1..], sep, y);
      assert xs[0] + sep + (Join(xs[1..], sep) + sep + y) == xs[0] + sep + Join(xs[1..], sep) + sep + y;
    }
  }

  // An explicit selector is read after the flags, as if it stood alone.
  lemma ExplicitSelectorFollows(o: EventsOptions)
    requires Validated(o) && FlagTerms(o) != [] && o.fieldSelector != ""
    ensures Parse(ResolveEventFieldSelector, Join(PrintTerms(FlagTerms(o)) + [o.fieldSelector], ",")) ==
            Combined(Parse(ResolveEventFieldSelector, Print(FlagTerms(o))), Parse(ResolveEventFieldSelector, o.fieldSelector))
  {
    var flags, text := PrintTerms(FlagTerms(o)), Print(FlagTerms(o));
    JoinSnoc(flags, ",", o.fieldSelector);
    SplitJoined(text, ',', o.fieldSelector);
    PartsConcat(ResolveEventFieldSelector, Split(text, ','), Split(o.fieldSelector, ','));
    assert |PrintTerm(FlagTerms(o)[0])| > 0 && flags[0] == PrintTerm(FlagTerms(o)[0]);
    assert text != "";
  }

  // ---------------------------------------------------------------------
  // SQL
  // ---------------------------------------------------------------------

  function ToSQL(t: Resolved): string {
    t.column + (if t.op.NotEqual? then " != ?" else " = ?")
  }

  // One condition and one argument for each term, in order.
  method TermsToSQL(terms: seq<Resolved>) returns (conditions: seq<string>, args: seq<string>)
    ensures |conditions| == |args| == |terms|
    ensures forall i :: 0 <= i < |terms| ==> conditions[i] == ToSQL(terms[i]) && args[i] == terms[i].value
  {
    conditions, args := [], [];
    for i := 0 to |terms|
      invariant |conditions| == |args| == i
      invariant forall j :: 0 <= j < i ==> conditions[j] == ToSQL(terms[j]) && args[j] == terms[j].value
    {
      conditions := conditions + [ToSQL(terms[i])];
      args := args + [terms[i].value];
    }
  }
}
