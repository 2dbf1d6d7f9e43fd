/**
 Event queries over Kubernetes events: the row stored for an event, the field
 of the event that each selector speaks of, and the events a request selects.
 */
module EventAnswers {
  import opened Prelude
  import Strings
  import opened FieldSelector
  import opened EventQueries
  import B = ClauseBuilding

  datatype ObjectReference =
    ObjectReference(apiVersion: string, kind: string, namespace: string, name: string, uid: string, fieldPath: string)

  // An event; what it does not have is empty. `lastSeen` is the first there is
  // of the times of its last occurrence.
  datatype Event = Event(
    scopeType: string,
    scopeName: string,
    namespace: string,
    name: string,
    uid: string,
    lastSeen: int,
    regarding: ObjectReference,
    related: ObjectReference,
    reason: string,
    kind: string,
    reportingController: string,
    reportingInstance: string)

  // ---------------------------------------------------------------------
  // The row of an event
  // ---------------------------------------------------------------------

  function MetadataValue(ev: Event, column: string): Option<string> {
    match column
    case "namespace" => Some(ev.namespace)
    case "name" => Some(ev.name)
    case "uid" => Some(ev.uid)
    case _ => None
  }

  function RegardingValue(ev: Event, column: string): Option<string> {
    match column
    case "regarding_api_version" => Some(ev.regarding.apiVersion)
    case "regarding_kind" => Some(ev.regarding.kind)
    case "regarding_namespace" => Some(ev.regarding.namespace)
    case "regarding_name" => Some(ev.regarding.name)
    case "regarding_uid" => Some(ev.regarding.uid)
    case "regarding_field_path" => Some(ev.regarding.fieldPath)
    case _ => None
  }

  function RelatedValue(ev: Event, column: string): Option<string> {
    match column
    case "related_api_version" => Some(ev.related.apiVersion)
    case "related_kind" => Some(ev.related.kind)
    case "related_namespace" => Some(ev.related.namespace)
    case "related_name" => Some(ev.related.name)
    case _ => None
  }

  function OtherValue(ev: Event, column: string): Option<string> {
    match column
    case "reason" => Some(ev.reason)
    case "type" => Some(ev.kind)
    case "source_component" => Some(ev.reportingController)
    case "source_host" => Some(ev.reportingInstance)
    case "scope_type" => Some(ev.scopeType)
    case "scope_name" => Some(ev.scopeName)
    case _ => None
  }

  function TextColumn(ev: Event, column: string): string {
    if MetadataValue(ev, column).Some? then MetadataValue(ev, column).value
    else if RegardingValue(ev, column).Some? then RegardingValue(ev, column).value
    else if RelatedValue(ev, column).Some? then RelatedValue(ev, column).value
    else if OtherValue(ev, column).Some? then OtherValue(ev, column).value
    else ""
  }

  // The columns of the events table that queries use, as its schema derives them.
  function RowOf(ev: Event): string -> Value {
    (column: string) => if column == "last_timestamp" then Time(ev.lastSeen) else Text(TextColumn(ev, column))
  }

  // ---------------------------------------------------------------------
  // The field of an event that a selector names
  // ---------------------------------------------------------------------

  function MetadataField(ev: Event, field: string): Option<string> {
    match field
    case "metadata.namespace" => Some(ev.namespace)
    case "metadata.name" => Some(ev.name)
    case "metadata.uid" => Some(ev.uid)
    case _ => None
  }

  function ShortField(ev: Event, field: string): Option<string> {
    match field
    case "namespace" => Some(ev.namespace)
    case "name" => Some(ev.name)
    case "uid" => Some(ev.uid)
    case _ => None
  }

  function RegardingField(ev: Event, field: string): Option<string> {
    match field
    case "regarding.apiVersion" => Some(ev.regarding.apiVersion)
    case "regarding.kind" => Some(ev.regarding.kind)
    case "regarding.namespace" => Some(ev.regarding.namespace)
    case "regarding.name" => Some(ev.regarding.name)
    case "regarding.uid" => Some(ev.regarding.uid)
    case "regarding.fieldPath" => Some(ev.regarding.fieldPath)
    case _ => None
  }

  function RelatedField(ev: Event, field: string): Option<string> {
    match field
    case "related.apiVersion" => Some(ev.related.apiVersion)
    case "related.kind" => Some(ev.related.kind)
    case "related.namespace" => Some(ev.related.namespace)
    case "related.name" => Some(ev.related.name)
    case _ => None
  }

  // The source of an event is what reported it.
  function OtherField(ev: Event, field: string): Option<string> {
    match field
    case "reason" => Some(ev.reason)
    case "type" => Some(ev.kind)
    case "source.component" => Some(ev.reportingController)
    case "source.host" => Some(ev.reportingInstance)
    case "reportingComponent" => Some(ev.reportingController)
    case "reportingInstance" => Some(ev.reportingInstance)
    case _ => None
  }

  function FieldOf(ev: Event, field: string): Option<string> {
    if ShortField(ev, field).Some? then ShortField(ev, field)
    else if MetadataField(ev, field).Some? then MetadataField(ev, field)
    else if RegardingField(ev, field).Some? then RegardingField(ev, field)
    else if RelatedField(ev, field).Some? then RelatedField(ev, field)
    else OtherField(ev, field)
  }

  // The column holds what the selector's field does.
  predicate Reads(ev: Event, column: Option<string>, field: Option<string>) {
    column.Some? == field.Some? && (column.Some? ==> RowOf(ev)(column.value) == Text(field.value))
  }

  lemma MetadataReads(ev: Event, path: string)
    ensures Reads(ev, MetadataColumn(path), MetadataField(ev, path))
  {
  }

  lemma RegardingReads(ev: Event, path: string)
    ensures Reads(ev, RegardingColumn(path), RegardingField(ev, path))
  {
  }

  lemma RelatedReads(ev: Event, path: string)
    ensures Reads(ev, RelatedColumn(path), RelatedField(ev, path))
  {
  }

  lemma OtherReads(ev: Event, path: string)
    ensures Reads(ev, OtherColumn(path), OtherField(ev, path))
  {
  }

  // For every selector field, documented or not: it is supported exactly if it
  // names a field of the event, and its column is where that field is stored.
  lemma SelectorReads(ev: Event, field: string)
    ensures Reads(ev, ResolveEventFieldSelector(field), FieldOf(ev, field))
  {
    var path := Unalias(field);
    MetadataReads(ev, path);
    RegardingReads(ev, path);
    RelatedReads(ev, path);
    OtherReads(ev, path);
  }

  // ---------------------------------------------------------------------
  // Selectors over event fields
  // ---------------------------------------------------------------------

  // The selector's terms with their fields as they are written.
  function AsWritten(ev: Event): Resolver {
    (field: string) => if FieldOf(ev, field).Some? then Some(field) else None
  }

  // The same term, once with the column and once with the field as written.
  predicate SameTerm(ev: Event, t: Resolved, w: Resolved) {
    && t.op == w.op && t.value == w.value && FieldOf(ev, w.column).Some?
    && RowOf(ev)(t.column) == Text(FieldOf(ev, w.column).value)
  }

  predicate SameTerms(ev: Event, ts: Result<seq<Resolved>, SelectorError>, ws: Result<seq<Resolved>, SelectorError>) {
    match (ts, ws)
    case (Ok(a), Ok(b)) => |a| == |b| && forall i :: 0 <= i < |a| ==> SameTerm(ev, a[i], b[i])
    case (Err(e), Err(f)) => e == f
    case _ => false
  }

  lemma PartReads(ev: Event, part: string)
    ensures match (ParsePart(ResolveEventFieldSelector, part), ParsePart(AsWritten(ev), part))
      case (Ok(t), Ok(w)) => SameTerm(ev, t, w)
      case (Err(e), Err(f)) => e == f
      case _ => false
  {
    var p := Cut(part);
    if p.Some? {
      SelectorReads(ev, Strings.TrimSpace(p.value.field));
    }
  }

  lemma {:induction false} PartsRead(ev: Event, parts: seq<string>)
    ensures SameTerms(ev, ParseParts(ResolveEventFieldSelector, parts), ParseParts(AsWritten(ev), parts))
  {
    if parts != [] {
      PartsRead(ev, parts[..|parts| - 1]);
      PartReads(ev, Strings.TrimSpace(parts[|parts| - 1]));
    }
  }

  lemma SelectorsRead(ev: Event, selector: string)
    ensures SameTerms(ev, Parse(ResolveEventFieldSelector, selector), Parse(AsWritten(ev), selector))
  {
    PartsRead(ev, Strings.Split(selector, ','));
  }

  predicate TermHolds(ev: Event, w: Resolved) {
    && FieldOf(ev, w.column).Some?
    && if w.op == FieldSelector.Equal then FieldOf(ev, w.column).value == w.value else FieldOf(ev, w.column).value != w.value
  }

  // Every term holds of the field it names.
  predicate Matches(ev: Event, selector: string) {
    match Parse(AsWritten(ev), selector)
    case Err(_) => false
    case Ok(ws) => forall i :: 0 <= i < |ws| ==> TermHolds(ev, ws[i])
  }

  lemma MatchesRow(ev: Event, selector: string)
    requires Parse(ResolveEventFieldSelector, selector).Ok?
    ensures var ts := Parse(ResolveEventFieldSelector, selector).value;
      Matches(ev, selector) <==> forall i :: 0 <= i < |ts| ==> (RowOf(ev)(ts[i].column) == Text(ts[i].value) <==> ts[i].op.Equal?)
  {
    SelectorsRead(ev, selector);
    var ts, ws := Parse(ResolveEventFieldSelector, selector).value, Parse(AsWritten(ev), selector).value;
    forall i | 0 <= i < |ts|
      ensures (RowOf(ev)(ts[i].column) == Text(ts[i].value) <==> ts[i].op.Equal?) <==> TermHolds(ev, ws[i])
    {
      assert SameTerm(ev, ts[i], ws[i]);
    }
  }

  // ---------------------------------------------------------------------
  // What a request selects
  // ---------------------------------------------------------------------

  // A request for an organization, a project or a user asks for the events of
  // that scope, and platform staff for all.
  predicate InScope(ev: Event, scope: Scope) {
    scope.kind == "Organization" || scope.kind == "Project" || scope.kind == "User" ==>
      ev.scopeType == scope.kind && ev.scopeName == scope.name
  }

  predicate Asks(parse: TimeParser, spec: Spec, scope: Scope, ev: Event) {
    && InScope(ev, scope)
    && (spec.namespace != "" ==> ev.namespace == spec.namespace)
    && (spec.startTime != "" ==> parse(spec.startTime).Some? && parse(spec.startTime).value <= ev.lastSeen)
    && (spec.endTime != "" ==> parse(spec.endTime).Some? && ev.lastSeen < parse(spec.endTime).value)
    && Matches(ev, spec.fieldSelector)
  }

  // The first thing that is wrong with a request.
  function Refusal(parse: TimeParser, spec: Spec): Option<QueryError> {
    if spec.startTime != "" && parse(spec.startTime).None? then Some(InvalidStartTime)
    else if spec.endTime != "" && parse(spec.endTime).None? then Some(InvalidEndTime)
    else match Parse(ResolveEventFieldSelector, spec.fieldSelector)
      case Err(e) => Some(InvalidSelector(e))
      case Ok(_) => None
  }

  lemma RefusedFor(parse: TimeParser, spec: Spec, scope: Scope)
    ensures match Refusal(parse, spec)
      case Some(e) => Requested(parse, spec, scope) == Err(e)
      case None => Requested(parse, spec, scope).Ok?
  {
  }

  lemma ScopePasses(ev: Event, scope: Scope)
    ensures AllPass(RowOf(ev), ScopeComparisons(scope)) <==> InScope(ev, scope)
  {
    var cs := ScopeComparisons(scope);
    if cs != [] {
      assert cs[0] in cs && cs[1] in cs;
      ScopeColumns(ev);
    }
  }

  lemma ScopeColumns(ev: Event)
    ensures RowOf(ev)("scope_type") == Text(ev.scopeType) && RowOf(ev)("scope_name") == Text(ev.scopeName)
  {
  }

  lemma FixedColumns(ev: Event)
    ensures RowOf(ev)("namespace") == Text(ev.namespace) && RowOf(ev)("last_timestamp") == Time(ev.lastSeen)
  {
  }

  // An event is selected by the text of the query and its arguments exactly if
  // it is of the request's scope, namespace and time range and every term of
  // the selector holds of its field.
  lemma RequestSelects(parse: TimeParser, spec: Spec, scope: Scope, ev: Event)
    requires Requested(parse, spec, scope).Ok?
    ensures var cs := Requested(parse, spec, scope).value;
      (cs == [] || Selects(RowOf(ev), WhereText(cs), ValuesOf(cs))) <==> Asks(parse, spec, scope, ev)
  {
    var row, cs := RowOf(ev), Requested(parse, spec, scope).value;
    RefusedFor(parse, spec, scope);
    FixedColumns(ev);
    ScopePasses(ev, scope);
    MatchesRow(ev, spec.fieldSelector);
    assert Answers(parse, spec, scope, row) <==> Asks(parse, spec, scope, ev);
    if cs == [] {
      AllPassAnswers(parse, spec, scope, row);
    } else {
      QuerySelects(parse, spec, scope, row);
    }
  }
}
