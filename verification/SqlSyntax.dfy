/**
 The SQL conditions sent to ClickHouse: their tokens, how tokens are spelled,
 and a recursive-descent parser with the usual precedence
 OR < AND < NOT < comparison, comparisons associating to the left.
 */
module SqlSyntax {
  import opened CelSyntax

  // The ClickHouse functions that conditions call.
  datatype Fn = FnHas | FnStartsWith | FnEndsWith | FnPosition | FnHour | FnSearch

  datatype Token =
    | FnTok(fn: Fn)
    | ColumnTok(column: Column)
    | Placeholder(n: nat)
    | Mark
    | Number(v: nat)
    | Literal(s: string)
    | LParen | RParen | LBracket | RBracket | Comma
    | AndKw | OrKw | NotKw | InKw
    | CompareTok(op: CompareOp)

  datatype Sql =
    | Col(column: Column)
    | Param(n: nat)
    | Num(v: nat)
    | Lit(s: string)
    | Func(fn: Fn, args: seq<Sql>)
    | ListOf(items: seq<Sql>)
    | Cmp(op: CompareOp, l: Sql, r: Sql)
    | Within(l: Sql, r: Sql)
    | Conj(l: Sql, r: Sql)
    | Disj(l: Sql, r: Sql)
    | Neg(x: Sql)

  datatype Parsed = Fail | Got(tree: Sql, rest: seq<Token>)

  datatype ParsedItems = FailItems | GotItems(items: seq<Sql>, rest: seq<Token>)

  predicate At(ts: seq<Token>, t: Token) {
    ts != [] && ts[0] == t
  }

  predicate AtCompare(ts: seq<Token>) {
    ts != [] && (ts[0].CompareTok? || ts[0] == InKw)
  }

  function Apply(op: Token, l: Sql, r: Sql): Sql
    requires op.CompareTok? || op == InKw
  {
    if op == InKw then Within(l, r) else Cmp(op.op, l, r)
  }

  function ParsePrimary(ts: seq<Token>): (p: Parsed)
    ensures p.Got? ==> |p.rest| < |ts|
    decreases |ts|, 0
  {
    if ts == [] then Fail
    else match ts[0]
      case FnTok(w) =>
        if At(ts[1..], LParen) then
          match ParseList(ts[2..], RParen)
          case FailItems => Fail
          case GotItems(args, rest) => Got(Func(w, args), rest)
        else Fail
      case ColumnTok(c) => Got(Col(c), ts[1..])
      case Placeholder(n) => Got(Param(n), ts[1..])
      case Number(v) => Got(Num(v), ts[1..])
      case Literal(s) => Got(Lit(s), ts[1..])
      case LParen =>
        (match ParseOr(ts[1..])
         case Fail => Fail
         case Got(t, rest) => if At(rest, RParen) then Got(t, rest[1..]) else Fail)
      case LBracket =>
        (match ParseList(ts[1..], RBracket)
         case FailItems => Fail
         case GotItems(items, rest) => Got(ListOf(items), rest))
      case _ => Fail
  }

  function CmpTail(t: Sql, ts: seq<Token>): (p: Parsed)
    ensures p.Got? ==> |p.rest| <= |ts|
    decreases |ts|, 1
  {
    if !AtCompare(ts) then Got(t, ts)
    else match ParsePrimary(ts[1..])
      case Fail => Fail
      case Got(u, rest) => CmpTail(Apply(ts[0], t, u), rest)
  }

  function ParseCmp(ts: seq<Token>): (p: Parsed)
    ensures p.Got? ==> |p.rest| < |ts|
    decreases |ts|, 2
  {
    match ParsePrimary(ts)
    case Fail => Fail
    case Got(t, rest) => CmpTail(t, rest)
  }

  function ParseNot(ts: seq<Token>): (p: Parsed)
    ensures p.Got? ==> |p.rest| < |ts|
    decreases |ts|, 3
  {
    if At(ts, NotKw) then
      match ParseNot(ts[1..])
      case Fail => Fail
      case Got(t, rest) => Got(Neg(t), rest)
    else ParseCmp(ts)
  }

  function AndTail(t: Sql, ts: seq<Token>): (p: Parsed)
    ensures p.Got? ==> |p.rest| <= |ts|
    decreases |ts|, 4
  {
    if !At(ts, AndKw) then Got(t, ts)
    else match ParseNot(ts[1..])
      case Fail => Fail
      case Got(u, rest) => AndTail(Conj(t, u), rest)
  }

  function ParseAnd(ts: seq<Token>): (p: Parsed)
    ensures p.Got? ==> |p.rest| < |ts|
    decreases |ts|, 5
  {
    match ParseNot(ts)
    case Fail => Fail
    case Got(t, rest) => AndTail(t, rest)
  }

  function OrTail(t: Sql, ts: seq<Token>): (p: Parsed)
    ensures p.Got? ==> |p.rest| <= |ts|
    decreases |ts|, 6
  {
    if !At(ts, OrKw) then Got(t, ts)
    else match ParseAnd(ts[1..])
      case Fail => Fail
      case Got(u, rest) => OrTail(Disj(t, u), rest)
  }

  function ParseOr(ts: seq<Token>): (p: Parsed)
    ensures p.Got? ==> |p.rest| < |ts|
    decreases |ts|, 7
  {
    match ParseAnd(ts)
    case Fail => Fail
    case Got(t, rest) => OrTail(t, rest)
  }

  function ParseItems(ts: seq<Token>, close: Token): (p: ParsedItems)
    ensures p.GotItems? ==> |p.rest| < |ts|
    decreases |ts|, 8
  {
    match ParseOr(ts)
    case Fail => FailItems
    case Got(t, rest) =>
      if At(rest, close) then GotItems([t], rest[1..])
      else if At(rest, Comma) then
        match ParseItems(rest[1..], close)
        case FailItems => FailItems
        case GotItems(items, rest') => GotItems([t] + items, rest')
      else FailItems
  }

  function ParseList(ts: seq<Token>, close: Token): (p: ParsedItems)
    ensures p.GotItems? ==> |p.rest| < |ts|
    decreases |ts|, 9
  {
    if At(ts, close) then GotItems([], ts[1..]) else ParseItems(ts, close)
  }

  // A whole condition.
  function Parse(ts: seq<Token>): Parsed {
    match ParseOr(ts)
    case Fail => Fail
    case Got(t, rest) => if rest == [] then Got(t, []) else Fail
  }

  // ---------------------------------------------------------------------
  // Spelling
  // ---------------------------------------------------------------------

  function Decimal(n: nat): string {
    if n < 10 then [Digit(n)] else Decimal(n / 10) + [Digit(n % 10)]
  }

  function Digit(n: nat): char
    requires n < 10
  {
    '0' + n as char
  }

  function Spelling(op: CompareOp): string {
    match op
    case Eq => "="
    case Ne => "!="
    case Ge => ">="
    case Le => "<="
    case Gt => ">"
    case Lt => "<"
  }

  function ColumnName(c: Column): string {
    match c
    case AuditID => "audit_id"
    case Verb => "verb"
    case Timestamp => "timestamp"
    case ActorName => "actor_name"
    case ActorType => "actor_type"
    case ActorUID => "actor_uid"
    case ApiGroup => "api_group"
    case ResourceKind => "resource_kind"
    case ResourceName => "resource_name"
    case ResourceNamespace => "resource_namespace"
    case ResourceUID => "resource_uid"
    case OriginType => "origin_type"
    case SourcePlaneType => "source_plane_type"
    case SourceCluster => "source_cluster"
    case SourceRegion => "source_region"
    case SourceCity => "source_city"
    case ChangeSource => "change_source"
    case Summary => "summary"
    case ActivityNamespace => "activity_namespace"
    case ActivityName => "activity_name"
    case Namespace => "namespace"
    case ResourceType => "resource"
    case Username => "user"
    case UserUID => "user_uid"
    case StatusCode => "status_code"
    case RelatedUIDList => "related_uids"
    case TenantType => "tenant_type"
    case TenantName => "tenant_name"
    case ScopeType => "scope_type"
    case ScopeName => "scope_name"
  }

  function FnName(fn: Fn): string {
    match fn
    case FnHas => "has"
    case FnStartsWith => "startsWith"
    case FnEndsWith => "endsWith"
    case FnPosition => "position"
    case FnHour => "toStartOfHour"
    case FnSearch => "multiSearchAnyCaseInsensitive"
  }

  function TokenText(t: Token): string {
    match t
    case FnTok(fn) => FnName(fn)
    case ColumnTok(c) => ColumnName(c)
    case Placeholder(n) => "{arg" + Decimal(n) + "}"
    case Mark => "?"
    case Number(v) => Decimal(v)
    case Literal(s) => "'" + s + "'"
    case LParen => "("
    case RParen => ")"
    case LBracket => "["
    case RBracket => "]"
    case Comma => ", "
    case AndKw => " AND "
    case OrKw => " OR "
    case NotKw => "NOT "
    case InKw => " IN "
    case CompareTok(op) => " " + Spelling(op) + " "
  }

  function Text(ts: seq<Token>): string {
    if ts == [] then "" else TokenText(ts[0]) + Text(ts[1..])
  }
}
