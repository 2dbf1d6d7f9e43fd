/**
 The value of a filter in CEL, the value of a SQL condition on a row, and
 their agreement on filters that are well typed at run time.
 */
module FilterMeaning {
  import opened Prelude
  import opened Strings
  import opened CelSyntax
  import opened SqlSyntax
  import opened CelConverter
  import opened FilterParsing

  // Numbers are compared across CEL's numeric types by their value.
  datatype Value =
    | VStr(s: string)
    | VNum(r: real)
    | VTime(t: int)
    | VBool(b: bool)
    | VList(vs: seq<Value>)
    | VMap(fields: map<string, Value>)

  // An evaluation error is None.
  type Answer = Option<Value>

  function StringTest(name: string, s: string, p: string): Option<bool> {
    match name
    case "startsWith" => Some(p <= s)
    case "endsWith" => Some(HasSuffix(s, p))
    case "contains" => Some(Contains(s, p))
    case _ => None
  }

  // ---------------------------------------------------------------------
  // CEL
  // ---------------------------------------------------------------------

  function Less(a: Value, b: Value): Option<bool> {
    match (a, b)
    case (VStr(x), VStr(y)) => Some(StrLess(x, y))
    case (VNum(x), VNum(y)) => Some(x < y)
    case (VTime(x), VTime(y)) => Some(x < y)
    case (VBool(x), VBool(y)) => Some(!x && y)
    case _ => None
  }

  function Decide(op: CompareOp, equal: bool, less: bool): bool {
    match op
    case Eq => equal
    case Ne => !equal
    case Lt => less
    case Le => less || equal
    case Gt => !less && !equal
    case Ge => !less
  }

  function CompareValues(op: CompareOp, a: Value, b: Value): Answer {
    if op.Eq? || op.Ne? then Some(VBool(Decide(op, a == b, false)))
    else match Less(a, b)
      case None => None
      case Some(less) => Some(VBool(Decide(op, a == b, less)))
  }

  // A false operand decides a conjunction, and a true one a disjunction, even
  // when the other operand fails.
  function AndAnswer(a: Answer, b: Answer): Answer {
    if a == Some(VBool(false)) || b == Some(VBool(false)) then Some(VBool(false))
    else if a == Some(VBool(true)) && b == Some(VBool(true)) then Some(VBool(true))
    else None
  }

  function OrAnswer(a: Answer, b: Answer): Answer {
    if a == Some(VBool(true)) || b == Some(VBool(true)) then Some(VBool(true))
    else if a == Some(VBool(false)) && b == Some(VBool(false)) then Some(VBool(false))
    else None
  }

  function ConstValue(c: Constant): Answer {
    match c
    case StringConst(s) => Some(VStr(s))
    case IntConst(i) => Some(VNum(i as real))
    case UintConst(u) => Some(VNum(u as real))
    case DoubleConst(r) => Some(VNum(r))
    case BoolConst(b) => Some(VBool(b))
    case OtherConst => None
  }

  function TimestampValue(d: Dialect, args: seq<Expr>): Answer {
    if !TimestampLiteral(args) then None
    else match d.parseTime(args[0].value.s)
      case None => None
      case Some(t) => Some(VTime(t))
  }

  function CelEval(d: Dialect, env: map<string, Value>, e: Expr): Answer
    decreases e, 0
  {
    match e
    case Const(c) => ConstValue(c)
    case Ident(name) => if name in env then Some(env[name]) else None
    case Select(operand, field, testOnly) =>
      (match CelEval(d, env, operand)
       case Some(VMap(m)) =>
         if testOnly then Some(VBool(field in m)) else if field in m then Some(m[field]) else None
       case _ => None)
    case Not(a) =>
      (match CelEval(d, env, a)
       case Some(VBool(b)) => Some(VBool(!b))
       case _ => None)
    case Compare(op, l, r) =>
      (match (CelEval(d, env, l), CelEval(d, env, r))
       case (Some(a), Some(b)) => CompareValues(op, a, b)
       case _ => None)
    case And(l, r) => AndAnswer(CelEval(d, env, l), CelEval(d, env, r))
    case Or(l, r) => OrAnswer(CelEval(d, env, l), CelEval(d, env, r))
    case In(l, r) =>
      (match (CelEval(d, env, l), CelEval(d, env, r))
       case (Some(a), Some(VList(vs))) => Some(VBool(a in vs))
       case (Some(VStr(s)), Some(VMap(m))) => Some(VBool(s in m))
       case _ => None)
    case Method(name, target, a) =>
      (match (CelEval(d, env, target), CelEval(d, env, a))
       case (Some(VStr(s)), Some(VStr(p))) =>
         (match StringTest(name, s, p)
          case Some(b) => Some(VBool(b))
          case None => None)
       case _ => None)
    case Call(name, args) => if name == "timestamp" then TimestampValue(d, args) else None
    case ListExpr(es) =>
      (match CelEvalAll(d, env, es)
       case Some(vs) => Some(VList(vs))
       case None => None)
    case Other(_) => None
  }

  function CelEvalAll(d: Dialect, env: map<string, Value>, es: seq<Expr>): Option<seq<Value>>
    decreases es, 1
  {
    if es == [] then Some([])
    else match (CelEval(d, env, es[0]), CelEvalAll(d, env, es[1..]))
      case (Some(v), Some(vs)) => Some([v] + vs)
      case _ => None
  }

  // ---------------------------------------------------------------------
  // SQL
  // ---------------------------------------------------------------------

  // Truth values are the numbers 1 and 0.
  datatype Datum =
    | DStr(s: string)
    | DNum(r: real)
    | DTime(t: int)
    | DList(ds: seq<Datum>)

  // The columns of a row; None for a column its table lacks.
  type Row = Column -> Option<Datum>

  function Truth(b: bool): Datum {
    DNum(if b then 1.0 else 0.0)
  }

  function SqlCompare(op: CompareOp, a: Datum, b: Datum): Option<Datum> {
    match (a, b)
    case (DStr(x), DStr(y)) => Some(Truth(Decide(op, x == y, StrLess(x, y))))
    case (DNum(x), DNum(y)) => Some(Truth(Decide(op, x == y, x < y)))
    case (DTime(x), DTime(y)) => Some(Truth(Decide(op, x == y, x < y)))
    case _ => None
  }

  // What both sides make of an operator between numbers.
  lemma NumbersCompared(op: CompareOp, x: real, y: real)
    ensures var holds := match op
        case Eq => x == y
        case Ne => x != y
        case Ge => x >= y
        case Le => x <= y
        case Gt => x > y
        case Lt => x < y;
      SqlCompare(op, DNum(x), DNum(y)) == Some(Truth(holds)) && CompareValues(op, VNum(x), VNum(y)) == Some(VBool(holds))
  {
  }

  // Membership in a list of comparable values.
  function SqlWithin(a: Datum, ds: seq<Datum>): Option<Datum> {
    if !a.DList? && forall i :: 0 <= i < |ds| ==> SqlCompare(Eq, a, ds[i]).Some? then Some(Truth(a in ds)) else None
  }

  // The 1-based position of the first occurrence from index i on, or 0.
  function PositionFrom(s: string, p: string, i: nat): nat
    decreases |s| - i
  {
    if i + |p| > |s| then 0
    else if OccursAt(s, p, i) then i + 1
    else PositionFrom(s, p, i + 1)
  }

  const HOUR := 3_600_000

  // Times are in milliseconds.
  function StartOfHour(t: int): int {
    t - t % HOUR
  }

  predicate AnyTermIn(s: string, terms: seq<Datum>) {
    exists i :: 0 <= i < |terms| && terms[i].DStr? && Contains(Lower(s), Lower(terms[i].s))
  }

  function SqlCall(fn: Fn, args: seq<Datum>): Option<Datum> {
    if |args| == 1 then
      match (fn, args[0])
      case (FnHour, DTime(t)) => Some(DTime(StartOfHour(t)))
      case _ => None
    else if |args| != 2 then None
    else match (fn, args[0], args[1])
      case (FnHas, DList(ds), DStr(s)) => Some(Truth(DStr(s) in ds))
      case (FnStartsWith, DStr(s), DStr(p)) => Some(Truth(p <= s))
      case (FnEndsWith, DStr(s), DStr(p)) => Some(Truth(HasSuffix(s, p)))
      case (FnPosition, DStr(s), DStr(p)) => Some(DNum(PositionFrom(s, p, 0) as real))
      case (FnSearch, DStr(s), DList(terms)) => Some(Truth(AnyTermIn(s, terms)))
      case _ => None
  }

  function SqlEval(row: Row, args: seq<Datum>, t: Sql): Option<Datum>
    decreases t, 0
  {
    match t
    case Col(c) => row(c)
    case Param(n) => if 1 <= n <= |args| then Some(args[n - 1]) else None
    case Num(v) => Some(DNum(v as real))
    case Lit(s) => Some(DStr(s))
    case Func(fn, ts) =>
      (match SqlEvalAll(row, args, ts)
       case Some(ds) => SqlCall(fn, ds)
       case None => None)
    case ListOf(ts) =>
      (match SqlEvalAll(row, args, ts)
       case Some(ds) => Some(DList(ds))
       case None => None)
    case Cmp(op, l, r) =>
      (match (SqlEval(row, args, l), SqlEval(row, args, r))
       case (Some(a), Some(b)) => SqlCompare(op, a, b)
       case _ => None)
    case Within(l, r) =>
      if !r.ListOf? then None
      else (match (SqlEval(row, args, l), SqlEvalAll(row, args, r.items))
            case (Some(a), Some(ds)) => SqlWithin(a, ds)
            case _ => None)
    case Conj(l, r) =>
      (match (SqlEval(row, args, l), SqlEval(row, args, r))
       case (Some(DNum(a)), Some(DNum(b))) => Some(Truth(a != 0.0 && b != 0.0))
       case _ => None)
    case Disj(l, r) =>
      (match (SqlEval(row, args, l), SqlEval(row, args, r))
       case (Some(DNum(a)), Some(DNum(b))) => Some(Truth(a != 0.0 || b != 0.0))
       case _ => None)
    case Neg(x) =>
      (match SqlEval(row, args, x)
       case Some(DNum(a)) => Some(Truth(a == 0.0))
       case _ => None)
  }

  function SqlEvalAll(row: Row, args: seq<Datum>, ts: seq<Sql>): Option<seq<Datum>>
    decreases ts, 1
  {
    if ts == [] then Some([])
    else match (SqlEval(row, args, ts[0]), SqlEvalAll(row, args, ts[1..]))
      case (Some(d), Some(ds)) => Some([d] + ds)
      case _ => None
  }

  // A condition's value as a database takes it.
  function AsBool(x: Option<Datum>): Option<bool> {
    match x
    case Some(DNum(r)) => Some(r != 0.0)
    case _ => None
  }

  // ---------------------------------------------------------------------
  // Well-typed filters
  // ---------------------------------------------------------------------

  datatype Ty = TStr | TNum | TTime | TBool

  function FieldColumn(d: Dialect, e: Expr): Option<Column> {
    match e
    case Ident(name) => MapIdentExpr(d.domain, name).ToOption()
    case Select(operand, field, _) => MapSelectExpr(d.domain, operand, field).ToOption()
    case _ => None
  }

  // The expression reads a field and tests for none on the way.
  predicate Reads(e: Expr) {
    match e
    case Select(operand, _, testOnly) => !testOnly && Reads(operand)
    case _ => true
  }

  function ColumnType(column: Column): Ty {
    match column
    case Timestamp => TTime
    case StatusCode => TNum
    case _ => TStr
  }

  function ConstType(c: Constant): Option<Ty> {
    match c
    case StringConst(_) => Some(TStr)
    case BoolConst(_) => Some(TBool)
    case OtherConst => None
    case _ => Some(TNum)
  }

  function BoolIf(c: bool): Option<Ty> {
    if c then Some(TBool) else None
  }

  // The type an expression has whatever the row holds; None when that is not
  // a single scalar type.
  function TypeOf(d: Dialect, e: Expr): Option<Ty>
    decreases e, 0
  {
    match e
    case Const(c) => ConstType(c)
    case Ident(_) => if FieldColumn(d, e).Some? then Some(ColumnType(FieldColumn(d, e).value)) else None
    case Select(_, _, _) =>
      if FieldColumn(d, e).Some? && Reads(e) then Some(ColumnType(FieldColumn(d, e).value)) else None
    case Not(a) => BoolIf(TypeOf(d, a) == Some(TBool))
    case Compare(_, l, r) => BoolIf(TypeOf(d, l).Some? && TypeOf(d, r) == TypeOf(d, l))
    case And(l, r) => BoolIf(TypeOf(d, l) == Some(TBool) && TypeOf(d, r) == Some(TBool))
    case Or(l, r) => BoolIf(TypeOf(d, l) == Some(TBool) && TypeOf(d, r) == Some(TBool))
    case In(l, r) =>
      if ArrayColumn(d.domain, r).Some? then BoolIf(TypeOf(d, l) == Some(TStr) && Reads(r))
      else BoolIf(TypeOf(d, l).Some? && r.ListExpr? && AllOfType(d, r.elements, TypeOf(d, l).value))
    case Method(name, target, a) =>
      BoolIf((PrefixFunction(name) || name == "contains") && TypeOf(d, target) == Some(TStr) && TypeOf(d, a) == Some(TStr))
    case Call(name, args) => if name == "timestamp" && TimestampValue(d, args).Some? then Some(TTime) else None
    case ListExpr(_) => None
    case Other(_) => None
  }

  predicate AllOfType(d: Dialect, es: seq<Expr>, t: Ty)
    decreases es, 1
  {
    es == [] || (TypeOf(d, es[0]) == Some(t) && AllOfType(d, es[1..], t))
  }

  predicate HasType(v: Value, t: Ty) {
    match t
    case TStr => v.VStr?
    case TNum => v.VNum?
    case TTime => v.VTime?
    case TBool => v.VBool?
  }

  predicate Scalar(v: Value) {
    !v.VList? && !v.VMap?
  }

  function DatumOf(v: Value): Datum
    requires Scalar(v)
  {
    match v
    case VStr(s) => DStr(s)
    case VNum(r) => DNum(r)
    case VTime(t) => DTime(t)
    case VBool(b) => Truth(b)
  }

  function ArgDatum(a: Arg): Datum {
    match a
    case ArgString(s) => DStr(s)
    case ArgInt(i) => DNum(i as real)
    case ArgUint(u) => DNum(u as real)
    case ArgDouble(r) => DNum(r)
    case ArgTime(t) => DTime(t)
  }

  // The arguments of a fragment numbered from n, among all those bound.
  ghost predicate Bound(args: seq<Datum>, n: nat, xs: seq<Arg>) {
    1 <= n && n - 1 + |xs| <= |args| &&
    forall i :: 0 <= i < |xs| ==> args[n - 1 + i] == ArgDatum(xs[i])
  }

  ghost predicate FieldAgrees(d: Dialect, env: map<string, Value>, row: Row, e: Expr) {
    FieldColumn(d, e).Some? && Reads(e) ==>
      var c := FieldColumn(d, e).value;
      CelEval(d, env, e).Some? &&
      HasType(CelEval(d, env, e).value, ColumnType(c)) && row(c) == Some(DatumOf(CelEval(d, env, e).value))
  }

  ghost predicate ListAgrees(d: Dialect, env: map<string, Value>, row: Row, e: Expr) {
    ArrayColumn(d.domain, e).Some? && Reads(e) ==>
      var c := ArrayColumn(d.domain, e).value;
      CelEval(d, env, e).Some? && row(c).Some? && row(c).value.DList? &&
      SameList(CelEval(d, env, e).value, row(c).value.ds, TStr)
  }

  ghost predicate SameList(v: Value, ds: seq<Datum>, t: Ty) {
    v.VList? && |v.vs| == |ds| &&
    forall i :: 0 <= i < |ds| ==> HasType(v.vs[i], t) && ds[i] == DatumOf(v.vs[i])
  }

  // Each column holds the value of the fields mapped to it.
  ghost predicate RowAgrees(d: Dialect, env: map<string, Value>, row: Row) {
    (forall e :: FieldAgrees(d, env, row, e)) && (forall e :: ListAgrees(d, env, row, e))
  }

  // ---------------------------------------------------------------------
  // Agreement
  // ---------------------------------------------------------------------

  lemma {:induction false} PositionIsContains(s: string, p: string, i: nat)
    ensures PositionFrom(s, p, i) > 0 <==> exists j :: i <= j <= |s| && OccursAt(s, p, j)
    decreases |s| - i
  {
    if i + |p| <= |s| && !OccursAt(s, p, i) {
      PositionIsContains(s, p, i + 1);
    }
  }

  // One expression's value on both sides.
  ghost predicate SameValue(v: Answer, x: Option<Datum>, t: Ty) {
    v.Some? && HasType(v.value, t) && x == Some(DatumOf(v.value))
  }

  lemma BoundSplit(args: seq<Datum>, n: nat, xs: seq<Arg>, ys: seq<Arg>)
    requires Bound(args, n, xs + ys)
    ensures Bound(args, n, xs) && Bound(args, n + |xs|, ys)
  {
    forall i | 0 <= i < |xs| ensures args[n - 1 + i] == ArgDatum(xs[i]) {
      assert (xs + ys)[i] == xs[i];
    }
    forall i | 0 <= i < |ys| ensures args[n + |xs| - 1 + i] == ArgDatum(ys[i]) {
      assert (xs + ys)[|xs| + i] == ys[i];
    }
  }

  ghost predicate Ready(d: Dialect, env: map<string, Value>, row: Row, e: Expr, n: nat, args: seq<Datum>) {
    RowAgrees(d, env, row) && Emit(d, e, n).Ok? && Bound(args, n, Emit(d, e, n).value.args)
  }

  // ---------------------------------------------------------------------
  // Typed filters are accepted
  // ---------------------------------------------------------------------

  // Neither the validator nor the converter refuses a typed filter.
  lemma TypedIsAccepted(d: Dialect, e: Expr)
    requires TypeOf(d, e).Some?
    ensures ValidateFieldAccess(d.domain, e) && forall n :: Emit(d, e, n).Ok?
  {
    forall n ensures Emit(d, e, n).Ok? {
      TypedIsConverted(d, e, n);
    }
    TypedIsChecked(d, e);
    ConvertibleValidates(d, e, 1);
  }

  lemma {:induction false} TypedIsChecked(d: Dialect, e: Expr)
    requires TypeOf(d, e).Some?
    ensures Checked(e)
    decreases e, 1
  {
    match e
    case Not(a) => TypedIsChecked(d, a);
    case Compare(_, l, r) =>
      TypedIsChecked(d, l);
      TypedIsChecked(d, r);
    case And(l, r) =>
      TypedIsChecked(d, l);
      TypedIsChecked(d, r);
    case Or(l, r) =>
      TypedIsChecked(d, l);
      TypedIsChecked(d, r);
    case In(l, r) =>
      TypedIsChecked(d, l);
      if r.ListExpr? {
        TypedItemsChecked(d, r.elements, TypeOf(d, l).value);
      }
    case Method(_, target, a) =>
      TypedIsChecked(d, target);
      TypedIsChecked(d, a);
    case _ =>
  }

  lemma {:induction false} TypedItemsChecked(d: Dialect, es: seq<Expr>, t: Ty)
    requires AllOfType(d, es, t)
    ensures AllChecked(es)
    decreases es, 0
  {
    if es != [] {
      TypedIsChecked(d, es[0]);
      TypedItemsChecked(d, es[1..], t);
    }
  }

  lemma {:induction false} TypedIsConverted(d: Dialect, e: Expr, n: nat)
    requires TypeOf(d, e).Some?
    ensures Emit(d, e, n).Ok?
    decreases e, 1
  {
    match TemplateOf(d, e)
    case Leaf =>
    case Wrap(_, x, _) => TypedIsConverted(d, x, n);
    case Pair(_, l, _, r, _) =>
      TypedIsConverted(d, l, n);
      var m := NextIndex(n, Emit(d, l, n));
      if r.ListExpr? && e.In? {
        TypedItemsConverted(d, r.elements, TypeOf(d, l).value, m);
        assert Emit(d, r, m) == Around([LBracket], EmitItems(d, r.elements, m), [RBracket]);
      } else {
        TypedIsConverted(d, r, m);
      }
    case Items(_) => assert false;
  }

  lemma {:induction false} TypedItemsConverted(d: Dialect, es: seq<Expr>, t: Ty, n: nat)
    requires AllOfType(d, es, t)
    ensures EmitItems(d, es, n).Ok?
    decreases es, 0
  {
    if es != [] {
      TypedIsConverted(d, es[0], n);
      if |es| > 1 {
        TypedItemsConverted(d, es[1..], t, NextIndex(n, Emit(d, es[0], n)));
      }
    }
  }

  // ---------------------------------------------------------------------
  // The translation keeps a filter's value
  // ---------------------------------------------------------------------

  lemma {:induction false} KeepsValue(d: Dialect, env: map<string, Value>, row: Row, e: Expr, n: nat,
                                      args: seq<Datum>)
    requires Ready(d, env, row, e, n, args) && TypeOf(d, e).Some?
    ensures SameValue(CelEval(d, env, e), SqlEval(row, args, Intended(d, e, n)), TypeOf(d, e).value)
    decreases e, 2
  {
    match e
    case Const(_) => LeafKeepsValue(d, env, row, e, n, args);
    case Ident(_) => FieldKeepsValue(d, env, row, e, n, args);
    case Select(_, _, _) => FieldKeepsValue(d, env, row, e, n, args);
    case Call(_, _) => LeafKeepsValue(d, env, row, e, n, args);
    case Not(_) => NotKeepsValue(d, env, row, e, n, args);
    case Compare(_, _, _) => CompareKeepsValue(d, env, row, e, n, args);
    case And(_, _) => AndKeepsValue(d, env, row, e, n, args);
    case Or(_, _) => OrKeepsValue(d, env, row, e, n, args);
    case In(_, r) =>
      if ArrayColumn(d.domain, r).Some? {
        HasKeepsValue(d, env, row, e, n, args);
      } else {
        ListKeepsValue(d, env, row, e, n, args);
      }
    case Method(_, _, _) => MethodKeepsValue(d, env, row, e, n, args);
  }

  lemma FieldKeepsValue(d: Dialect, env: map<string, Value>, row: Row, e: Expr, n: nat, args: seq<Datum>)
    requires Ready(d, env, row, e, n, args) && TypeOf(d, e).Some? && (e.Ident? || e.Select?)
    ensures SameValue(CelEval(d, env, e), SqlEval(row, args, Intended(d, e, n)), TypeOf(d, e).value)
  {
    assert FieldAgrees(d, env, row, e);
    assert Intended(d, e, n) == Col(FieldColumn(d, e).value);
  }

  lemma {:induction false} NotKeepsValue(d: Dialect, env: map<string, Value>, row: Row, e: Expr, n: nat,
                                         args: seq<Datum>)
    requires Ready(d, env, row, e, n, args) && TypeOf(d, e).Some? && e.Not?
    ensures SameValue(CelEval(d, env, e), SqlEval(row, args, Intended(d, e, n)), TBool)
    decreases e, 1
  {
    KeepsValue(d, env, row, e.arg, n, args);
    NegationAgrees(row, args, Intended(d, e.arg, n), CelEval(d, env, e.arg).value.b);
  }

  lemma NegationAgrees(row: Row, args: seq<Datum>, x: Sql, a: bool)
    requires SqlEval(row, args, x) == Some(Truth(a))
    ensures SqlEval(row, args, Neg(x)) == Some(Truth(!a))
  {
  }

  lemma {:induction false} CompareKeepsValue(d: Dialect, env: map<string, Value>, row: Row, e: Expr,
                                             n: nat, args: seq<Datum>)
    requires Ready(d, env, row, e, n, args) && TypeOf(d, e).Some? && e.Compare?
    ensures SameValue(CelEval(d, env, e), SqlEval(row, args, Intended(d, e, n)), TBool)
    decreases e, 1
  {
    PairReady(d, env, row, e, e.left, e.right, n, args);
    KeepsValue(d, env, row, e.left, n, args);
    KeepsValue(d, env, row, e.right, After(d, e.left, n), args);
    var x, y := Intended(d, e.left, n), Intended(d, e.right, After(d, e.left, n));
    ComparedValues(e.op, CelEval(d, env, e.left), SqlEval(row, args, x), CelEval(d, env, e.right), SqlEval(row, args, y),
                   TypeOf(d, e.left).value);
    assert SqlEval(row, args, Intended(d, e, n)) == SqlCompare(e.op, SqlEval(row, args, x).value, SqlEval(row, args, y).value);
  }

  lemma ComparedValues(op: CompareOp, v: Answer, x: Option<Datum>, w: Answer, y: Option<Datum>, t: Ty)
    requires SameValue(v, x, t) && SameValue(w, y, t)
    ensures SameValue(CompareValues(op, v.value, w.value), SqlCompare(op, x.value, y.value), TBool)
  {
  }

  lemma {:induction false} AndKeepsValue(d: Dialect, env: map<string, Value>, row: Row, e: Expr, n: nat,
                                         args: seq<Datum>)
    requires Ready(d, env, row, e, n, args) && TypeOf(d, e).Some? && e.And?
    ensures SameValue(CelEval(d, env, e), SqlEval(row, args, Intended(d, e, n)), TBool)
    decreases e, 1
  {
    PairReady(d, env, row, e, e.left, e.right, n, args);
    KeepsValue(d, env, row, e.left, n, args);
    KeepsValue(d, env, row, e.right, After(d, e.left, n), args);
    JunctionAgrees(row, args, Intended(d, e.left, n), Intended(d, e.right, After(d, e.left, n)),
                   CelEval(d, env, e.left).value.b, CelEval(d, env, e.right).value.b);
  }

  lemma {:induction false} OrKeepsValue(d: Dialect, env: map<string, Value>, row: Row, e: Expr, n: nat,
                                        args: seq<Datum>)
    requires Ready(d, env, row, e, n, args) && TypeOf(d, e).Some? && e.Or?
    ensures SameValue(CelEval(d, env, e), SqlEval(row, args, Intended(d, e, n)), TBool)
    decreases e, 1
  {
    PairReady(d, env, row, e, e.left, e.right, n, args);
    KeepsValue(d, env, row, e.left, n, args);
    KeepsValue(d, env, row, e.right, After(d, e.left, n), args);
    JunctionAgrees(row, args, Intended(d, e.left, n), Intended(d, e.right, After(d, e.left, n)),
                   CelEval(d, env, e.left).value.b, CelEval(d, env, e.right).value.b);
  }

  lemma JunctionAgrees(row: Row, args: seq<Datum>, x: Sql, y: Sql, a: bool, b: bool)
    requires SqlEval(row, args, x) == Some(Truth(a)) && SqlEval(row, args, y) == Some(Truth(b))
    ensures SqlEval(row, args, Conj(x, y)) == Some(Truth(a && b))
    ensures SqlEval(row, args, Disj(x, y)) == Some(Truth(a || b))
  {
  }

  lemma LeafKeepsValue(d: Dialect, env: map<string, Value>, row: Row, e: Expr, n: nat, args: seq<Datum>)
    requires Ready(d, env, row, e, n, args) && TypeOf(d, e).Some? && (e.Const? || e.Call?)
    ensures SameValue(CelEval(d, env, e), SqlEval(row, args, Intended(d, e, n)), TypeOf(d, e).value)
  {
    var xs := EmitLeaf(d, e, n).value.args;
    if xs != [] {
      assert args[n - 1 + 0] == ArgDatum(xs[0]);
    }
  }

  lemma PairReady(d: Dialect, env: map<string, Value>, row: Row, e: Expr, l: Expr, r: Expr, n: nat,
                  args: seq<Datum>)
    requires Ready(d, env, row, e, n, args)
    requires TemplateOf(d, e).Pair? && TemplateOf(d, e).l == l && TemplateOf(d, e).r == r
    ensures Ready(d, env, row, l, n, args) && Ready(d, env, row, r, After(d, l, n), args)
  {
    BoundSplit(args, n, Emit(d, l, n).value.args, Emit(d, r, After(d, l, n)).value.args);
  }

  lemma {:induction false} HasKeepsValue(d: Dialect, env: map<string, Value>, row: Row, e: Expr, n: nat,
                                         args: seq<Datum>)
    requires Ready(d, env, row, e, n, args) && TypeOf(d, e).Some?
    requires e.In? && ArrayColumn(d.domain, e.right).Some?
    ensures SameValue(CelEval(d, env, e), SqlEval(row, args, Intended(d, e, n)), TBool)
    decreases e, 1
  {
    var c := ArrayColumn(d.domain, e.right).value;
    assert ListAgrees(d, env, row, e.right);
    KeepsValue(d, env, row, e.left, n, args);
    var x := Intended(d, e.left, n);
    EvalTwo(row, args, Col(c), x);
    assert SqlEval(row, args, Intended(d, e, n)) == SqlCall(FnHas, [row(c).value, SqlEval(row, args, x).value]);
  }

  lemma EvalTwo(row: Row, args: seq<Datum>, x: Sql, y: Sql)
    requires SqlEval(row, args, x).Some? && SqlEval(row, args, y).Some?
    ensures SqlEvalAll(row, args, [x, y]) == Some([SqlEval(row, args, x).value, SqlEval(row, args, y).value])
  {
    var a, b := SqlEval(row, args, x).value, SqlEval(row, args, y).value;
    assert [x, y][1..] == [y] && [y][1..] == [];
    assert [b] + [] == [b] && [a] + [b] == [a, b];
    assert SqlEvalAll(row, args, [y]) == Some([b]);
  }

  lemma {:induction false} MethodKeepsValue(d: Dialect, env: map<string, Value>, row: Row, e: Expr, n: nat,
                                            args: seq<Datum>)
    requires Ready(d, env, row, e, n, args) && TypeOf(d, e).Some? && e.Method?
    ensures SameValue(CelEval(d, env, e), SqlEval(row, args, Intended(d, e, n)), TBool)
    decreases e, 1
  {
    var m := After(d, e.target, n);
    PairReady(d, env, row, e, e.target, e.arg, n, args);
    KeepsValue(d, env, row, e.target, n, args);
    KeepsValue(d, env, row, e.arg, m, args);
    EvalTwo(row, args, Intended(d, e.target, n), Intended(d, e.arg, m));
    MethodAgrees(row, args, e.name, Intended(d, e.target, n), Intended(d, e.arg, m),
                 CelEval(d, env, e.target).value.s, CelEval(d, env, e.arg).value.s);
  }

  lemma MethodAgrees(row: Row, args: seq<Datum>, name: string, x: Sql, y: Sql, s: string, p: string)
    requires PrefixFunction(name) || name == "contains"
    requires SqlEvalAll(row, args, [x, y]) == Some([DStr(s), DStr(p)])
    ensures StringTest(name, s, p).Some?
    ensures var t := if name == "contains" then Cmp(Gt, Func(FnPosition, [x, y]), Num(0)) else Func(PrefixFn(name), [x, y]);
            SqlEval(row, args, t) == Some(Truth(StringTest(name, s, p).value))
  {
    if name == "contains" {
      PositionIsContains(s, p, 0);
      assert SqlEval(row, args, Func(FnPosition, [x, y])) == Some(DNum(PositionFrom(s, p, 0) as real));
    }
  }

  lemma {:induction false} ListKeepsValue(d: Dialect, env: map<string, Value>, row: Row, e: Expr, n: nat,
                                          args: seq<Datum>)
    requires Ready(d, env, row, e, n, args) && TypeOf(d, e).Some?
    requires e.In? && ArrayColumn(d.domain, e.right).None?
    ensures SameValue(CelEval(d, env, e), SqlEval(row, args, Intended(d, e, n)), TBool)
    decreases e, 1
  {
    var m, t := After(d, e.left, n), TypeOf(d, e.left).value;
    PairReady(d, env, row, e, e.left, e.right, n, args);
    KeepsValue(d, env, row, e.left, n, args);
    ItemsKeepValues(d, env, row, e.right.elements, m, args, t);
    var vs, ds := CelEvalAll(d, env, e.right.elements).value, SqlEvalAll(row, args, IntendedItems(d, e.right.elements, m)).value;
    WithinList(row, args, Intended(d, e.left, n), IntendedItems(d, e.right.elements, m), CelEval(d, env, e.left).value, vs, ds, t);
  }

  lemma WithinList(row: Row, args: seq<Datum>, x: Sql, xs: seq<Sql>, v: Value, vs: seq<Value>, ds: seq<Datum>, t: Ty)
    requires HasType(v, t) && SameList(VList(vs), ds, t)
    requires SqlEval(row, args, x) == Some(DatumOf(v)) && SqlEvalAll(row, args, xs) == Some(ds)
    ensures SqlEval(row, args, Within(x, ListOf(xs))) == Some(Truth(DatumOf(v) in ds))
  {
    forall i | 0 <= i < |ds| ensures SqlCompare(Eq, DatumOf(v), ds[i]).Some? {
      assert HasType(vs[i], t) && ds[i] == DatumOf(vs[i]);
    }
  }

  lemma {:induction false} ItemsKeepValues(d: Dialect, env: map<string, Value>, row: Row, es: seq<Expr>,
                                           n: nat, args: seq<Datum>, t: Ty)
    requires RowAgrees(d, env, row) && EmitItems(d, es, n).Ok? && Bound(args, n, EmitItems(d, es, n).value.args)
    requires AllOfType(d, es, t)
    ensures CelEvalAll(d, env, es).Some? && SqlEvalAll(row, args, IntendedItems(d, es, n)).Some?
    ensures SameList(VList(CelEvalAll(d, env, es).value), SqlEvalAll(row, args, IntendedItems(d, es, n)).value, t)
    decreases es, 3
  {
    if es != [] {
      ItemsStart(d, es, n);
      var xs, m := Emit(d, es[0], n).value.args, After(d, es[0], n);
      var rest := if |es| == 1 then [] else IntendedItems(d, es[1..], m);
      ItemsReady(d, es, n, args);
      KeepsValue(d, env, row, es[0], n, args);
      if |es| > 1 {
        ItemsKeepValues(d, env, row, es[1..], m, args, t);
      } else {
        assert es[1..] == [];
      }
      assert IntendedItems(d, es, n) == [Intended(d, es[0], n)] + rest;
    }
  }

  lemma ItemsReady(d: Dialect, es: seq<Expr>, n: nat, args: seq<Datum>)
    requires es != [] && EmitItems(d, es, n).Ok? && Bound(args, n, EmitItems(d, es, n).value.args)
    ensures Emit(d, es[0], n).Ok? && Bound(args, n, Emit(d, es[0], n).value.args)
    ensures |es| > 1 ==>
              var m := After(d, es[0], n);
              EmitItems(d, es[1..], m).Ok? && Bound(args, m, EmitItems(d, es[1..], m).value.args)
  {
    if |es| > 1 {
      ItemsStart(d, es, n);
      BoundSplit(args, n, Emit(d, es[0], n).value.args, EmitItems(d, es[1..], After(d, es[0], n)).value.args);
    }
  }

}
