/**
 Checked CEL filter expressions, the fields each domain lets them use, and the
 columns those fields are stored in.
 */
module CelSyntax {
  import opened Prelude

  datatype Constant =
    | StringConst(s: string)
    | IntConst(i: int)
    | UintConst(u: nat)
    | DoubleConst(d: real)
    | BoolConst(b: bool)
    | OtherConst

  datatype CompareOp = Eq | Ne | Ge | Le | Gt | Lt

  // Operators have the arity the CEL checker gives them; `Method` is a call
  // with a receiver, `Call` one without. `Other` is a struct literal or a
  // comprehension with its component expressions. `has(e.f)` is a select that
  // only tests for the field.
  datatype Expr =
    | Const(value: Constant)
    | Ident(name: string)
    | Select(operand: Expr, field: string, testOnly: bool)
    | Not(arg: Expr)
    | Compare(op: CompareOp, left: Expr, right: Expr)
    | And(left: Expr, right: Expr)
    | Or(left: Expr, right: Expr)
    | In(left: Expr, right: Expr)
    | Method(name: string, target: Expr, arg: Expr)
    | Call(name: string, args: seq<Expr>)
    | ListExpr(elements: seq<Expr>)
    | Other(parts: seq<Expr>)

  function Field(operand: Expr, field: string): Expr {
    Select(operand, field, false)
  }

  function Has(operand: Expr, field: string): Expr {
    Select(operand, field, true)
  }

  datatype Domain = ActivityDomain | AuditDomain

  // Columns of the activities and audit_logs tables.
  datatype Column =
    | ActivityName | ActivityNamespace | ChangeSource | Summary | RelatedUIDList
    | ActorName | ActorType | ActorUID
    | ApiGroup | ResourceKind | ResourceName | ResourceNamespace | ResourceUID
    | OriginType | SourcePlaneType | SourceCluster | SourceRegion | SourceCity
    | TenantType | TenantName | Timestamp
    | AuditID | Verb | Namespace | ResourceType | Username | UserUID | StatusCode
    | ScopeType | ScopeName

  datatype ConvertError = FieldUnavailable | UnsupportedExpression | InvalidTimestamp

  function MapIdentExpr(domain: Domain, name: string): Result<Column, ConvertError> {
    match domain
    case ActivityDomain => Err(FieldUnavailable)
    case AuditDomain =>
      match name
      case "auditID" => Ok(AuditID)
      case "verb" => Ok(Verb)
      case "requestReceivedTimestamp" => Ok(Timestamp)
      case _ => Err(FieldUnavailable)
  }

  function MapActorField(field: string): Result<Column, ConvertError> {
    match field
    case "name" => Ok(ActorName)
    case "type" => Ok(ActorType)
    case "uid" => Ok(ActorUID)
    case _ => Err(FieldUnavailable)
  }

  function MapResourceField(field: string): Result<Column, ConvertError> {
    match field
    case "apiGroup" => Ok(ApiGroup)
    case "kind" => Ok(ResourceKind)
    case "name" => Ok(ResourceName)
    case "namespace" => Ok(ResourceNamespace)
    case "uid" => Ok(ResourceUID)
    case _ => Err(FieldUnavailable)
  }

  function MapSourceField(field: string): Result<Column, ConvertError> {
    match field
    case "planeType" => Ok(SourcePlaneType)
    case "cluster" => Ok(SourceCluster)
    case "region" => Ok(SourceRegion)
    case "city" => Ok(SourceCity)
    case _ => Err(FieldUnavailable)
  }

  function MapOriginField(field: string): Result<Column, ConvertError> {
    if field == "type" then Ok(OriginType) else Err(FieldUnavailable)
  }

  function MapNestedField(base: string, parent: string, field: string): Result<Column, ConvertError> {
    if base != "spec" then Err(FieldUnavailable)
    else
      match parent
      case "actor" => MapActorField(field)
      case "resource" => MapResourceField(field)
      case "origin" => MapOriginField(field)
      case "source" => MapSourceField(field)
      case _ => Err(FieldUnavailable)
  }

  function MapDirectField(base: string, field: string): Result<Column, ConvertError> {
    match (base, field)
    case ("spec", "changeSource") => Ok(ChangeSource)
    case ("spec", "summary") => Ok(Summary)
    case ("metadata", "namespace") => Ok(ActivityNamespace)
    case ("metadata", "name") => Ok(ActivityName)
    case _ => Err(FieldUnavailable)  // spec.relatedUIDs is a list
  }

  function MapAuditField(base: string, field: string): Result<Column, ConvertError> {
    match (base, field)
    case ("objectRef", "namespace") => Ok(Namespace)
    case ("objectRef", "resource") => Ok(ResourceType)
    case ("objectRef", "name") => Ok(ResourceName)
    case ("objectRef", "apiGroup") => Ok(ApiGroup)
    case ("user", "username") => Ok(Username)
    case ("user", "uid") => Ok(UserUID)
    case ("responseStatus", "code") => Ok(StatusCode)
    case _ => Err(FieldUnavailable)
  }

  // The mapper and the validator do not look at the test flag.
  function MapSelectExpr(domain: Domain, operand: Expr, field: string): Result<Column, ConvertError> {
    match domain
    case ActivityDomain =>
      if operand.Select? && operand.operand.Ident? then MapNestedField(operand.operand.name, operand.field, field)
      else if operand.Ident? then MapDirectField(operand.name, field)
      else Err(UnsupportedExpression)
    case AuditDomain =>
      if operand.Ident? then MapAuditField(operand.name, field) else Err(UnsupportedExpression)
  }

  // List-valued fields, valid on the right of `in` only.
  function ArrayColumn(domain: Domain, e: Expr): Option<Column> {
    if domain == ActivityDomain && e.Select? && e.operand == Ident("spec") && e.field == "relatedUIDs" then Some(RelatedUIDList)
    else None
  }

  // ---------------------------------------------------------------------
  // Field validation
  // ---------------------------------------------------------------------

  function ValidFields(domain: Domain, path: string): Option<set<string>> {
    match domain
    case ActivityDomain =>
      (match path
       case "spec" => Some({"changeSource", "summary", "relatedUIDs", "actor", "resource", "origin", "source"})
       case "spec.actor" => Some({"name", "type", "uid"})
       case "spec.resource" => Some({"apiGroup", "kind", "name", "namespace", "uid"})
       case "spec.origin" => Some({"type"})
       case "spec.source" => Some({"planeType", "cluster", "region", "city"})
       case "metadata" => Some({"namespace", "name"})
       case _ => None)
    case AuditDomain =>
      (match path
       case "objectRef" => Some({"apiGroup", "namespace", "resource", "name"})
       case "user" => Some({"username", "uid"})
       case "responseStatus" => Some({"code"})
       case _ => None)
  }

  predicate FieldAllowed(domain: Domain, path: string, field: string) {
    ValidFields(domain, path).None? || field in ValidFields(domain, path).value
  }

  predicate ValidateSelectExpr(domain: Domain, operand: Expr, field: string) {
    if domain == ActivityDomain && operand.Select? then
      operand.operand.Ident? ==> FieldAllowed(domain, operand.operand.name + "." + operand.field, field)
    else
      operand.Ident? ==> FieldAllowed(domain, operand.name, field)
  }

  predicate ValidateFieldAccess(domain: Domain, e: Expr)
    decreases e, 1
  {
    match e
    case Const(_) => true
    case Ident(_) => true
    case Select(operand, field, _) => ValidateSelectExpr(domain, operand, field) && ValidateFieldAccess(domain, operand)
    case Not(arg) => ValidateFieldAccess(domain, arg)
    case Compare(_, l, r) => ValidateFieldAccess(domain, l) && ValidateFieldAccess(domain, r)
    case And(l, r) => ValidateFieldAccess(domain, l) && ValidateFieldAccess(domain, r)
    case Or(l, r) => ValidateFieldAccess(domain, l) && ValidateFieldAccess(domain, r)
    case In(l, r) => ValidateFieldAccess(domain, l) && ValidateFieldAccess(domain, r)
    case Method(_, target, arg) => ValidateFieldAccess(domain, target) && ValidateFieldAccess(domain, arg)
    case Call(_, args) => ValidateAll(domain, args)
    case ListExpr(elements) => ValidateAll(domain, elements)
    case Other(parts) => ValidateAll(domain, parts)
  }

  predicate ValidateAll(domain: Domain, es: seq<Expr>)
    decreases es, 0
  {
    es == [] || (ValidateFieldAccess(domain, es[0]) && ValidateAll(domain, es[1..]))
  }

  // A field that has a column passes validation, with everything on its path.
  lemma MappedFieldValidates(domain: Domain, operand: Expr, field: string, testOnly: bool)
    requires MapSelectExpr(domain, operand, field).Ok? || ArrayColumn(domain, Select(operand, field, testOnly)).Some?
    ensures ValidateFieldAccess(domain, Select(operand, field, testOnly))
  {
    if domain == ActivityDomain && operand.Select? {
      var base, parent := operand.operand.name, operand.field;
      assert base == "spec" && FieldAllowed(domain, base, parent);
      if parent == "actor" {
        assert base + "." + parent == "spec.actor";
      } else if parent == "resource" {
        assert base + "." + parent == "spec.resource";
      } else if parent == "origin" {
        assert base + "." + parent == "spec.origin";
      } else {
        assert base + "." + parent == "spec.source";
      }
      assert FieldAllowed(domain, base + "." + parent, field);
      assert ValidateFieldAccess(domain, operand);
    }
  }
}
