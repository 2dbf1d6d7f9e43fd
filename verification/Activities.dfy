/**
 Activities as a filter sees them: the map a watch evaluates, the row a query
 reads, and the list of related UIDs both carry.
 */
module Activities {
  import opened Prelude
  import opened CelSyntax
  import opened SqlSyntax
  import opened CelConverter
  import opened FilterParsing
  import opened FilterMeaning
  import opened ConditionLists
  import opened TextReading

  datatype ActivityActor = ActivityActor(kind: string, name: string, uid: string)

  datatype ActivityResource =
    ActivityResource(apiGroup: string, kind: string, name: string, namespace: string, uid: string)

  datatype ActivityLink = ActivityLink(marker: string, resource: ActivityResource)

  datatype ActivitySource = ActivitySource(planeType: string, cluster: string, region: string, city: string)

  // `timestamp` is the creation time in milliseconds.
  datatype Activity = Activity(
    name: string,
    namespace: string,
    timestamp: int,
    tenantType: string,
    tenantName: string,
    summary: string,
    changeSource: string,
    actor: ActivityActor,
    resource: ActivityResource,
    links: seq<ActivityLink>,
    related: seq<ActivityResource>,
    originType: string,
    source: Option<ActivitySource>)

  // ---------------------------------------------------------------------
  // Related UIDs
  // ---------------------------------------------------------------------

  function AllUIDs(a: Activity): seq<string> {
    [a.resource.uid] + ResourceUIDs(a.related) + LinkUIDs(a.links)
  }

  function ResourceUIDs(rs: seq<ActivityResource>): seq<string> {
    seq(|rs|, i requires 0 <= i < |rs| => rs[i].uid)
  }

  function LinkUIDs(ls: seq<ActivityLink>): seq<string> {
    seq(|ls|, i requires 0 <= i < |ls| => ls[i].resource.uid)
  }

  // ClickHouse's arrayDistinct, keeping first occurrences, and its filter on
  // non-empty strings.
  function ArrayDistinct(xs: seq<string>): seq<string> {
    if xs == [] then []
    else
      var d := ArrayDistinct(xs[..|xs| - 1]);
      if xs[|xs| - 1] in d then d else d + [xs[|xs| - 1]]
  }

  function ArrayNonEmpty(xs: seq<string>): seq<string> {
    if xs == [] then []
    else ArrayNonEmpty(xs[..|xs| - 1]) + (if xs[|xs| - 1] != "" then [xs[|xs| - 1]] else [])
  }

  // The related_uids column.
  function RelatedUIDsColumn(a: Activity): seq<string> {
    ArrayNonEmpty(ArrayDistinct(AllUIDs(a)))
  }

  lemma {:induction false} NonEmptyMembers(xs: seq<string>, x: string)
    ensures x in ArrayNonEmpty(xs) <==> x != "" && x in xs
  {
    if xs != [] {
      NonEmptyMembers(xs[..|xs| - 1], x);
      assert xs == xs[..|xs| - 1] + [xs[|xs| - 1]];
    }
  }

  lemma {:induction false} DistinctMembers(xs: seq<string>, x: string)
    ensures x in ArrayDistinct(xs) <==> x in xs
  {
    if xs != [] {
      DistinctMembers(xs[..|xs| - 1], x);
      DistinctMembers(xs[..|xs| - 1], xs[|xs| - 1]);
      assert xs == xs[..|xs| - 1] + [xs[|xs| - 1]];
    }
  }

  ghost predicate NoRepeats(xs: seq<string>) {
    forall i, j :: 0 <= i < j < |xs| ==> xs[i] != xs[j]
  }

  lemma {:induction false} DistinctNoRepeats(xs: seq<string>)
    ensures NoRepeats(ArrayDistinct(xs))
  {
    if xs != [] {
      DistinctNoRepeats(xs[..|xs| - 1]);
    }
  }

  lemma {:induction false} NonEmptyNoRepeats(xs: seq<string>)
    requires NoRepeats(xs)
    ensures NoRepeats(ArrayNonEmpty(xs))
  {
    if xs != [] {
      NonEmptyNoRepeats(xs[..|xs| - 1]);
      NonEmptyMembers(xs[..|xs| - 1], xs[|xs| - 1]);
    }
  }

  // Exactly the distinct non-empty UIDs of the resource, the related resources
  // and the linked ones.
  lemma RelatedUIDsExact(a: Activity)
    ensures NoRepeats(RelatedUIDsColumn(a))
    ensures forall x :: x in RelatedUIDsColumn(a) <==> x != "" && x in AllUIDs(a)
  {
    DistinctNoRepeats(AllUIDs(a));
    NonEmptyNoRepeats(ArrayDistinct(AllUIDs(a)));
    forall x ensures x in RelatedUIDsColumn(a) <==> x != "" && x in AllUIDs(a) {
      NonEmptyMembers(ArrayDistinct(AllUIDs(a)), x);
      DistinctMembers(AllUIDs(a), x);
    }
  }

  // One more UID in the column.
  lemma ColumnSnoc(done: seq<string>, uid: string)
    ensures ArrayNonEmpty(ArrayDistinct(done + [uid])) ==
            if uid != "" && uid !in ArrayNonEmpty(ArrayDistinct(done)) then ArrayNonEmpty(ArrayDistinct(done)) + [uid]
            else ArrayNonEmpty(ArrayDistinct(done))
  {
    var d := ArrayDistinct(done);
    assert (done + [uid])[..|done|] == done;
    NonEmptyMembers(d, uid);
    assert (d + [uid])[..|d|] == d;
  }

  // The UIDs gathered from those visited so far.
  predicate Gathered(uids: seq<string>, seen: map<string, bool>, done: seq<string>) {
    uids == ArrayNonEmpty(ArrayDistinct(done)) &&
    seen.Keys == (set u | u in uids) && forall u :: u in seen ==> seen[u]
  }

  method Add(uids: seq<string>, seen: map<string, bool>, uid: string, ghost done: seq<string>)
    returns (uids': seq<string>, seen': map<string, bool>)
    requires Gathered(uids, seen, done)
    ensures Gathered(uids', seen', done + [uid])
  {
    uids', seen' := uids, seen;
    ColumnSnoc(done, uid);
    if uid != "" && !(uid in seen && seen[uid]) {
      seen' := seen[uid := true];
      uids' := uids + [uid];
    }
  }

  // What a watch computes is what the column stores, order included.
  method RelatedUIDs(a: Activity) returns (uids: seq<string>)
    ensures uids == RelatedUIDsColumn(a)
  {
    var seen: map<string, bool> := map[];
    uids := [];
    uids, seen := Add(uids, seen, a.resource.uid, []);
    for i := 0 to |a.related|
      invariant RelatedDone(a, i, uids, seen)
    {
      RelatedNext(a, i);
      uids, seen := Add(uids, seen, a.related[i].uid, [a.resource.uid] + ResourceUIDs(a.related[..i]));
    }
    LinksStart(a, uids, seen);
    for i := 0 to |a.links|
      invariant LinksDone(a, i, uids, seen)
    {
      LinksNext(a, i);
      uids, seen := Add(uids, seen, a.links[i].resource.uid,
                        [a.resource.uid] + ResourceUIDs(a.related) + LinkUIDs(a.links[..i]));
    }
    assert a.links[..|a.links|] == a.links;
  }

  // The UIDs of the resource and of the first i related resources are in.
  ghost predicate RelatedDone(a: Activity, i: nat, uids: seq<string>, seen: map<string, bool>) {
    i <= |a.related| && Gathered(uids, seen, [a.resource.uid] + ResourceUIDs(a.related[..i]))
  }

  ghost predicate LinksDone(a: Activity, i: nat, uids: seq<string>, seen: map<string, bool>) {
    i <= |a.links| && Gathered(uids, seen, [a.resource.uid] + ResourceUIDs(a.related) + LinkUIDs(a.links[..i]))
  }

  lemma RelatedNext(a: Activity, i: nat)
    requires i < |a.related|
    ensures [a.resource.uid] + ResourceUIDs(a.related[..i]) + [a.related[i].uid] ==
            [a.resource.uid] + ResourceUIDs(a.related[..i + 1])
  {
  }

  lemma LinksStart(a: Activity, uids: seq<string>, seen: map<string, bool>)
    requires RelatedDone(a, |a.related|, uids, seen)
    ensures LinksDone(a, 0, uids, seen)
  {
    assert a.related[..|a.related|] == a.related;
    assert LinkUIDs(a.links[..0]) == [];
    assert [a.resource.uid] + ResourceUIDs(a.related) + [] == [a.resource.uid] + ResourceUIDs(a.related);
  }

  lemma LinksNext(a: Activity, i: nat)
    requires i < |a.links|
    ensures [a.resource.uid] + ResourceUIDs(a.related) + LinkUIDs(a.links[..i]) + [a.links[i].resource.uid] ==
            [a.resource.uid] + ResourceUIDs(a.related) + LinkUIDs(a.links[..i + 1])
  {
  }

  // ---------------------------------------------------------------------
  // The two views
  // ---------------------------------------------------------------------

  function Strings(xs: seq<string>): seq<Value> {
    seq(|xs|, i requires 0 <= i < |xs| => VStr(xs[i]))
  }

  function SourceOf(a: Activity): ActivitySource {
    if a.source.Some? then a.source.value else ActivitySource("", "", "", "")
  }

  function SourceMap(s: ActivitySource): map<string, Value> {
    map["planeType" := VStr(s.planeType), "cluster" := VStr(s.cluster), "region" := VStr(s.region), "city" := VStr(s.city)]
  }

  function ActorMap(a: ActivityActor): map<string, Value> {
    map["name" := VStr(a.name), "type" := VStr(a.kind), "uid" := VStr(a.uid)]
  }

  function ResourceMap(r: ActivityResource): map<string, Value> {
    map["apiGroup" := VStr(r.apiGroup), "kind" := VStr(r.kind), "name" := VStr(r.name), "namespace" := VStr(r.namespace),
        "uid" := VStr(r.uid)]
  }

  function OriginMap(a: Activity): map<string, Value> {
    map["type" := VStr(a.originType)]
  }

  function SpecMap(a: Activity): map<string, Value> {
    map[
      "changeSource" := VStr(a.changeSource),
      "summary" := VStr(a.summary),
      "relatedUIDs" := VList(Strings(RelatedUIDsColumn(a))),
      "source" := VMap(SourceMap(SourceOf(a))),
      "actor" := VMap(ActorMap(a.actor)),
      "resource" := VMap(ResourceMap(a.resource)),
      "origin" := VMap(OriginMap(a))]
  }

  function ActivityToMap(a: Activity): map<string, Value> {
    map[
      "spec" := VMap(SpecMap(a)),
      "metadata" := VMap(map["namespace" := VStr(a.namespace), "name" := VStr(a.name)])]
  }

  function StringData(xs: seq<string>): seq<Datum> {
    seq(|xs|, i requires 0 <= i < |xs| => DStr(xs[i]))
  }

  // The columns of the activities table that queries use. A source that
  // is absent from the stored JSON extracts as empty strings.
  function ColumnOf(a: Activity, c: Column): Option<Datum> {
    match c
    case ActivityName => Some(DStr(a.name))
    case ActivityNamespace => Some(DStr(a.namespace))
    case ChangeSource => Some(DStr(a.changeSource))
    case Summary => Some(DStr(a.summary))
    case RelatedUIDList => Some(DList(StringData(RelatedUIDsColumn(a))))
    case ActorName => Some(DStr(a.actor.name))
    case ActorType => Some(DStr(a.actor.kind))
    case ActorUID => Some(DStr(a.actor.uid))
    case ApiGroup => Some(DStr(a.resource.apiGroup))
    case ResourceKind => Some(DStr(a.resource.kind))
    case ResourceName => Some(DStr(a.resource.name))
    case ResourceNamespace => Some(DStr(a.resource.namespace))
    case ResourceUID => Some(DStr(a.resource.uid))
    case OriginType => Some(DStr(a.originType))
    case SourcePlaneType => Some(DStr(SourceOf(a).planeType))
    case SourceCluster => Some(DStr(SourceOf(a).cluster))
    case SourceRegion => Some(DStr(SourceOf(a).region))
    case SourceCity => Some(DStr(SourceOf(a).city))
    case TenantType => Some(DStr(a.tenantType))
    case TenantName => Some(DStr(a.tenantName))
    case Timestamp => Some(DTime(a.timestamp))
    case _ => None
  }

  // The table's columns by name, as the schema derives them from the activity.
  lemma ActivityStored(a: Activity, c: Column)
    ensures var v := RowOf(a)(c);
      match c
      case ActivityName => ColumnName(c) == "activity_name" && v == Some(DStr(a.name))
      case ActivityNamespace => ColumnName(c) == "activity_namespace" && v == Some(DStr(a.namespace))
      case ChangeSource => ColumnName(c) == "change_source" && v == Some(DStr(a.changeSource))
      case Summary => ColumnName(c) == "summary" && v == Some(DStr(a.summary))
      case RelatedUIDList => ColumnName(c) == "related_uids" && v == Some(DList(StringData(RelatedUIDsColumn(a))))
      case ActorName => ColumnName(c) == "actor_name" && v == Some(DStr(a.actor.name))
      case ActorType => ColumnName(c) == "actor_type" && v == Some(DStr(a.actor.kind))
      case ActorUID => ColumnName(c) == "actor_uid" && v == Some(DStr(a.actor.uid))
      case ApiGroup => ColumnName(c) == "api_group" && v == Some(DStr(a.resource.apiGroup))
      case ResourceKind => ColumnName(c) == "resource_kind" && v == Some(DStr(a.resource.kind))
      case ResourceName => ColumnName(c) == "resource_name" && v == Some(DStr(a.resource.name))
      case ResourceNamespace => ColumnName(c) == "resource_namespace" && v == Some(DStr(a.resource.namespace))
      case ResourceUID => ColumnName(c) == "resource_uid" && v == Some(DStr(a.resource.uid))
      case OriginType => ColumnName(c) == "origin_type" && v == Some(DStr(a.originType))
      case SourcePlaneType => ColumnName(c) == "source_plane_type" && v == Some(DStr(if a.source.Some? then a.source.value.planeType else ""))
      case SourceCluster => ColumnName(c) == "source_cluster" && v == Some(DStr(if a.source.Some? then a.source.value.cluster else ""))
      case SourceRegion => ColumnName(c) == "source_region" && v == Some(DStr(if a.source.Some? then a.source.value.region else ""))
      case SourceCity => ColumnName(c) == "source_city" && v == Some(DStr(if a.source.Some? then a.source.value.city else ""))
      case TenantType => ColumnName(c) == "tenant_type" && v == Some(DStr(a.tenantType))
      case TenantName => ColumnName(c) == "tenant_name" && v == Some(DStr(a.tenantName))
      case Timestamp => ColumnName(c) == "timestamp" && v == Some(DTime(a.timestamp))
      case _ => v == None
  {
  }

  // The fields documented for filters on activities.
  predicate IsActivityField(e: Expr) {
    match e
    case Select(Ident("spec"), field, false) => field in {"changeSource", "summary"}
    case Select(Ident("metadata"), field, false) => field in {"namespace", "name"}
    case Select(Select(Ident("spec"), "actor", false), field, false) => field in {"name", "type", "uid"}
    case Select(Select(Ident("spec"), "resource", false), field, false) => field in {"apiGroup", "kind", "name", "namespace", "uid"}
    case Select(Select(Ident("spec"), "origin", false), field, false) => field == "type"
    case Select(Select(Ident("spec"), "source", false), field, false) => field in {"planeType", "cluster", "region", "city"}
    case _ => false
  }

  // Exactly those have a column, and the related UIDs one for membership.
  lemma ActivityFieldsMapped(d: Dialect, e: Expr)
    requires d.domain == ActivityDomain
    ensures FieldColumn(d, e).Some? && Reads(e) <==> IsActivityField(e)
    ensures ArrayColumn(d.domain, e).Some? && Reads(e) <==> e == Select(Ident("spec"), "relatedUIDs", false)
  {
  }

  function RowOf(a: Activity): Row {
    (c: Column) => ColumnOf(a, c)
  }

  lemma InnerField(d: Dialect, a: Activity, parent: string, m: map<string, Value>, field: string)
    requires parent in SpecMap(a) && SpecMap(a)[parent] == VMap(m) && field in m
    ensures CelEval(d, ActivityToMap(a), Field(Field(Ident("spec"), parent), field)) == Some(m[field])
  {
  }

  lemma StringFieldAgrees(d: Dialect, a: Activity, e: Expr, column: Column, v: string)
    requires FieldColumn(d, e) == Some(column) && ColumnType(column) == TStr
    requires ColumnOf(a, column) == Some(DStr(v)) && CelEval(d, ActivityToMap(a), e) == Some(VStr(v))
    ensures FieldAgrees(d, ActivityToMap(a), RowOf(a), e)
  {
  }

  lemma MetadataFieldAgrees(d: Dialect, a: Activity, field: string)
    requires d.domain == ActivityDomain
    ensures FieldAgrees(d, ActivityToMap(a), RowOf(a), Field(Ident("metadata"), field))
  {
    var e := Field(Ident("metadata"), field);
    if FieldColumn(d, e).Some? {
      var m := map["namespace" := VStr(a.namespace), "name" := VStr(a.name)];
      assert CelEval(d, ActivityToMap(a), Ident("metadata")) == Some(VMap(m));
      StringFieldAgrees(d, a, e, FieldColumn(d, e).value, m[field].s);
    }
  }

  lemma DirectFieldAgrees(d: Dialect, a: Activity, base: string, field: string)
    requires d.domain == ActivityDomain
    ensures FieldAgrees(d, ActivityToMap(a), RowOf(a), Field(Ident(base), field))
  {
    if base == "spec" {
    } else if base == "metadata" {
      MetadataFieldAgrees(d, a, field);
    }
  }

  lemma ActorFieldAgrees(d: Dialect, a: Activity, field: string)
    requires d.domain == ActivityDomain
    ensures FieldAgrees(d, ActivityToMap(a), RowOf(a), Field(Field(Ident("spec"), "actor"), field))
  {
    if MapActorField(field).Ok? {
      InnerField(d, a, "actor", ActorMap(a.actor), field);
      StringFieldAgrees(d, a, Field(Field(Ident("spec"), "actor"), field), MapActorField(field).value, ActorMap(a.actor)[field].s);
    }
  }

  lemma ResourceLookup(a: Activity, field: string)
    ensures MapResourceField(field).Ok? ==>
              field in ResourceMap(a.resource) && ResourceMap(a.resource)[field].VStr? &&
              ColumnOf(a, MapResourceField(field).value) == Some(DStr(ResourceMap(a.resource)[field].s))
  {
  }

  lemma ResourceFieldAgrees(d: Dialect, a: Activity, field: string)
    requires d.domain == ActivityDomain
    ensures FieldAgrees(d, ActivityToMap(a), RowOf(a), Field(Field(Ident("spec"), "resource"), field))
  {
    if MapResourceField(field).Ok? {
      ResourceLookup(a, field);
      InnerField(d, a, "resource", ResourceMap(a.resource), field);
      StringFieldAgrees(d, a, Field(Field(Ident("spec"), "resource"), field), MapResourceField(field).value, ResourceMap(a.resource)[field].s);
    }
  }

  lemma SourceLookup(a: Activity, field: string)
    ensures MapSourceField(field).Ok? ==>
              field in SourceMap(SourceOf(a)) && SourceMap(SourceOf(a))[field].VStr? &&
              ColumnOf(a, MapSourceField(field).value) == Some(DStr(SourceMap(SourceOf(a))[field].s))
  {
  }

  lemma SourceFieldAgrees(d: Dialect, a: Activity, field: string)
    requires d.domain == ActivityDomain
    ensures FieldAgrees(d, ActivityToMap(a), RowOf(a), Field(Field(Ident("spec"), "source"), field))
  {
    if MapSourceField(field).Ok? {
      SourceLookup(a, field);
      InnerField(d, a, "source", SourceMap(SourceOf(a)), field);
      StringFieldAgrees(d, a, Field(Field(Ident("spec"), "source"), field), MapSourceField(field).value, SourceMap(SourceOf(a))[field].s);
    }
  }

  lemma OriginFieldAgrees(d: Dialect, a: Activity, field: string)
    requires d.domain == ActivityDomain
    ensures FieldAgrees(d, ActivityToMap(a), RowOf(a), Field(Field(Ident("spec"), "origin"), field))
  {
    if MapOriginField(field).Ok? {
      InnerField(d, a, "origin", OriginMap(a), field);
      StringFieldAgrees(d, a, Field(Field(Ident("spec"), "origin"), field), MapOriginField(field).value, OriginMap(a)[field].s);
    }
  }

  lemma NestedFieldAgrees(d: Dialect, a: Activity, base: string, parent: string, field: string)
    requires d.domain == ActivityDomain
    ensures FieldAgrees(d, ActivityToMap(a), RowOf(a), Field(Field(Ident(base), parent), field))
  {
    if base == "spec" {
      if parent == "actor" {
        ActorFieldAgrees(d, a, field);
      } else if parent == "resource" {
        ResourceFieldAgrees(d, a, field);
      } else if parent == "origin" {
        OriginFieldAgrees(d, a, field);
      } else if parent == "source" {
        SourceFieldAgrees(d, a, field);
      }
    }
  }

  lemma AnyFieldAgrees(d: Dialect, a: Activity, e: Expr)
    requires d.domain == ActivityDomain
    ensures FieldAgrees(d, ActivityToMap(a), RowOf(a), e)
  {
    if e.Select? && !e.testOnly {
      if e.operand.Ident? {
        DirectFieldAgrees(d, a, e.operand.name, e.field);
        assert e == Field(Ident(e.operand.name), e.field);
      } else if e.operand.Select? {
        assert Reads(e) ==> Reads(e.operand);
        assert Reads(e.operand) ==> !e.operand.testOnly;
        if !e.operand.testOnly && e.operand.operand.Ident? {
          NestedFieldAgrees(d, a, e.operand.operand.name, e.operand.field, e.field);
          assert e == Field(Field(Ident(e.operand.operand.name), e.operand.field), e.field);
        }
      }
    }
  }

  lemma AnyListAgrees(d: Dialect, a: Activity, e: Expr)
    requires d.domain == ActivityDomain
    ensures ListAgrees(d, ActivityToMap(a), RowOf(a), e)
  {
    if ArrayColumn(d.domain, e).Some? && Reads(e) {
      assert e == Field(Ident("spec"), "relatedUIDs");
      assert CelEval(d, ActivityToMap(a), Ident("spec")) == Some(VMap(SpecMap(a)));
    }
  }

  lemma RowAgreesWithMap(d: Dialect, a: Activity)
    requires d.domain == ActivityDomain
    ensures RowAgrees(d, ActivityToMap(a), RowOf(a))
  {
    forall e ensures FieldAgrees(d, ActivityToMap(a), RowOf(a), e) {
      AnyFieldAgrees(d, a, e);
    }
    forall e ensures ListAgrees(d, ActivityToMap(a), RowOf(a), e) {
      AnyListAgrees(d, a, e);
    }
  }

  // ---------------------------------------------------------------------
  // Watch and query
  // ---------------------------------------------------------------------

  function EvaluateActivity(d: Dialect, e: Expr, a: Activity): Option<bool> {
    match CelEval(d, ActivityToMap(a), e)
    case Some(VBool(b)) => Some(b)
    case _ => None
  }

  function Data(xs: seq<Arg>): seq<Datum> {
    seq(|xs|, i requires 0 <= i < |xs| => ArgDatum(xs[i]))
  }

  // Whether ClickHouse keeps the row, given a condition's text and arguments.
  function RowSelected(row: Row, args: seq<Datum>, text: string): Option<bool> {
    match ReadText(text)
    case Fail => None
    case Got(t, _) => AsBool(SqlEval(row, args, t))
  }

  lemma FilterKeepsValue(d: Dialect, e: Expr, a: Activity)
    requires d.domain == ActivityDomain && Emit(d, e, 1).Ok? && TypeOf(d, e) == Some(TBool)
    ensures EvaluateActivity(d, e, a).Some?
    ensures SqlEval(RowOf(a), Data(Emit(d, e, 1).value.args), Intended(d, e, 1)) ==
            Some(Truth(EvaluateActivity(d, e, a).value))
  {
    RowAgreesWithMap(d, a);
    KeepsValue(d, ActivityToMap(a), RowOf(a), e, 1, Data(Emit(d, e, 1).value.args));
  }

  // A watch delivers exactly the activities a query with the same filter selects.
  lemma WatchAgreesWithQuery(d: Dialect, e: Expr, a: Activity)
    requires d.domain == ActivityDomain
    requires Emit(d, e, 1).Ok? && Safe(d, e) && TypeOf(d, e) == Some(TBool)
    ensures EvaluateActivity(d, e, a).Some?
    ensures RowSelected(RowOf(a), Data(Emit(d, e, 1).value.args), Text(Blanked(Tokens(d, e, 1)))) == EvaluateActivity(d, e, a)
  {
    FilterReadsBack(d, e);
    ParsesAsIntended(d, e, 1);
    FilterKeepsValue(d, e, a);
  }
}
