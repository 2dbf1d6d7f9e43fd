/**
 Audit logs as a filter sees them: the event that CEL speaks of and the row
 that is stored for it.
 */
module AuditLogs {
  import opened Prelude
  import opened CelSyntax
  import opened SqlSyntax
  import opened CelConverter
  import opened FilterMeaning

  // An event of the audit log; what it does not have is empty or zero. Times
  // are in milliseconds: when the request was received, and when it had come to
  // the stage at which the event was logged.
  datatype AuditLog = AuditLog(
    auditId: string,
    verb: string,
    received: int,
    staged: int,
    namespace: string,
    resource: string,
    name: string,
    apiGroup: string,
    username: string,
    uid: string,
    code: int,
    scopeType: string,
    scopeName: string)

  // What becomes of an audit ID in a UUID column and of a status code in one of
  // 16 bits.
  datatype Columns = Columns(uuid: string -> string, uint16: int -> int)

  function ObjectRefMap(log: AuditLog): map<string, Value> {
    map["namespace" := VStr(log.namespace), "resource" := VStr(log.resource), "name" := VStr(log.name),
        "apiGroup" := VStr(log.apiGroup)]
  }

  function UserMap(log: AuditLog): map<string, Value> {
    map["username" := VStr(log.username), "uid" := VStr(log.uid)]
  }

  function StatusMap(log: AuditLog): map<string, Value> {
    map["code" := VNum(log.code as real)]
  }

  function LogToMap(log: AuditLog): map<string, Value> {
    map["auditID" := VStr(log.auditId),
        "verb" := VStr(log.verb),
        "requestReceivedTimestamp" := VTime(log.received),
        "objectRef" := VMap(ObjectRefMap(log)),
        "user" := VMap(UserMap(log)),
        "responseStatus" := VMap(StatusMap(log))]
  }

  // The columns that the audit log's table derives from the event.
  function LogColumn(cols: Columns, log: AuditLog, c: Column): Option<Datum> {
    match c
    case Timestamp => Some(DTime(log.received))
    case ScopeType => Some(DStr(log.scopeType))
    case ScopeName => Some(DStr(log.scopeName))
    case Username => Some(DStr(log.username))
    case UserUID => Some(DStr(log.uid))
    case AuditID => Some(DStr(cols.uuid(log.auditId)))
    case Verb => Some(DStr(log.verb))
    case ApiGroup => Some(DStr(log.apiGroup))
    case ResourceType => Some(DStr(log.resource))
    case Namespace => Some(DStr(log.namespace))
    case ResourceName => Some(DStr(log.name))
    case StatusCode => Some(DNum(cols.uint16(log.code) as real))
    case _ => None
  }

  function LogRow(cols: Columns, log: AuditLog): Row {
    (c: Column) => LogColumn(cols, log, c)
  }

  // The table's columns by name, as the schema derives them from the event.
  lemma LogStored(cols: Columns, log: AuditLog, c: Column)
    ensures var v := LogRow(cols, log)(c);
      match c
      case Timestamp => ColumnName(c) == "timestamp" && v == Some(DTime(log.received))
      case ScopeType => ColumnName(c) == "scope_type" && v == Some(DStr(log.scopeType))
      case ScopeName => ColumnName(c) == "scope_name" && v == Some(DStr(log.scopeName))
      case Username => ColumnName(c) == "user" && v == Some(DStr(log.username))
      case UserUID => ColumnName(c) == "user_uid" && v == Some(DStr(log.uid))
      case AuditID => ColumnName(c) == "audit_id" && v == Some(DStr(cols.uuid(log.auditId)))
      case Verb => ColumnName(c) == "verb" && v == Some(DStr(log.verb))
      case ApiGroup => ColumnName(c) == "api_group" && v == Some(DStr(log.apiGroup))
      case ResourceType => ColumnName(c) == "resource" && v == Some(DStr(log.resource))
      case Namespace => ColumnName(c) == "namespace" && v == Some(DStr(log.namespace))
      case ResourceName => ColumnName(c) == "resource_name" && v == Some(DStr(log.name))
      case StatusCode => ColumnName(c) == "status_code" && v == Some(DNum(cols.uint16(log.code) as real))
      case _ => v == None
  {
  }

  // The fields documented for filters on audit logs.
  predicate IsLogField(e: Expr) {
    match e
    case Ident(name) => name in {"auditID", "verb", "requestReceivedTimestamp"}
    case Select(Ident("objectRef"), field, false) => field in {"namespace", "resource", "name", "apiGroup"}
    case Select(Ident("user"), field, false) => field in {"username", "uid"}
    case Select(Ident("responseStatus"), field, false) => field == "code"
    case _ => false
  }

  // Exactly those have a column.
  lemma LogFieldsMapped(d: Dialect, e: Expr)
    requires d.domain == AuditDomain
    ensures FieldColumn(d, e).Some? && Reads(e) <==> IsLogField(e)
  {
  }

  // The two narrow columns keep what the event holds.
  predicate Fits(cols: Columns, log: AuditLog) {
    cols.uuid(log.auditId) == log.auditId && cols.uint16(log.code) == log.code
  }

  // ---------------------------------------------------------------------
  // Row and event
  // ---------------------------------------------------------------------

  lemma IdentAgrees(d: Dialect, cols: Columns, log: AuditLog, name: string)
    requires d.domain == AuditDomain && Fits(cols, log)
    ensures FieldAgrees(d, LogToMap(log), LogRow(cols, log), Ident(name))
  {
  }

  lemma ObjectRefAgrees(d: Dialect, cols: Columns, log: AuditLog, field: string)
    requires d.domain == AuditDomain
    ensures FieldAgrees(d, LogToMap(log), LogRow(cols, log), Field(Ident("objectRef"), field))
  {
    assert CelEval(d, LogToMap(log), Ident("objectRef")) == Some(VMap(ObjectRefMap(log)));
  }

  lemma UserAgrees(d: Dialect, cols: Columns, log: AuditLog, field: string)
    requires d.domain == AuditDomain
    ensures FieldAgrees(d, LogToMap(log), LogRow(cols, log), Field(Ident("user"), field))
  {
    assert CelEval(d, LogToMap(log), Ident("user")) == Some(VMap(UserMap(log)));
  }

  lemma StatusAgrees(d: Dialect, cols: Columns, log: AuditLog, field: string)
    requires d.domain == AuditDomain && Fits(cols, log)
    ensures FieldAgrees(d, LogToMap(log), LogRow(cols, log), Field(Ident("responseStatus"), field))
  {
    assert CelEval(d, LogToMap(log), Ident("responseStatus")) == Some(VMap(StatusMap(log)));
  }

  lemma AnyFieldAgrees(d: Dialect, cols: Columns, log: AuditLog, e: Expr)
    requires d.domain == AuditDomain && Fits(cols, log)
    ensures FieldAgrees(d, LogToMap(log), LogRow(cols, log), e)
  {
    if e.Ident? {
      IdentAgrees(d, cols, log, e.name);
    } else if e.Select? && e.operand.Ident? && !e.testOnly {
      assert e == Field(Ident(e.operand.name), e.field);
      if e.operand.name == "objectRef" {
        ObjectRefAgrees(d, cols, log, e.field);
      } else if e.operand.name == "user" {
        UserAgrees(d, cols, log, e.field);
      } else if e.operand.name == "responseStatus" {
        StatusAgrees(d, cols, log, e.field);
      }
    }
  }

  // Every field that a filter may use has the same value in the event and in its
  // row, exactly if the ID and the code survive their columns.
  lemma LogRowAgreesIff(d: Dialect, cols: Columns, log: AuditLog)
    requires d.domain == AuditDomain
    ensures RowAgrees(d, LogToMap(log), LogRow(cols, log)) <==> Fits(cols, log)
  {
    var env, row := LogToMap(log), LogRow(cols, log);
    if Fits(cols, log) {
      forall e ensures FieldAgrees(d, env, row, e) {
        AnyFieldAgrees(d, cols, log, e);
      }
      assert forall e :: ListAgrees(d, env, row, e);
    }
    if RowAgrees(d, env, row) {
      var code := Field(Ident("responseStatus"), "code");
      assert FieldAgrees(d, env, row, Ident("auditID"));
      assert FieldAgrees(d, env, row, code);
      assert CelEval(d, env, Ident("responseStatus")) == Some(VMap(StatusMap(log)));
    }
  }
}
