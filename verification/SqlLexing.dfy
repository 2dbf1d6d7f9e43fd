/**
 Reading a condition's text: a lexer for the SQL that conditions are written
 in, and when it gives back the tokens that were spelled.
 */
module SqlLexing {
  import opened Prelude
  import opened CelSyntax
  import opened SqlSyntax

  // ---------------------------------------------------------------------
  // Words
  // ---------------------------------------------------------------------

  predicate DigitChar(c: char) {
    '0' <= c <= '9'
  }

  predicate WordChar(c: char) {
    'a' <= c <= 'z' || 'A' <= c <= 'Z' || DigitChar(c) || c == '_'
  }

  // Columns, functions and keywords.
  predicate IsWord(t: Token) {
    t.ColumnTok? || t.FnTok? || t.AndKw? || t.OrKw? || t.NotKw? || t.InKw?
  }

  function WordText(t: Token): string
    requires IsWord(t)
  {
    match t
    case ColumnTok(c) => ColumnName(c)
    case FnTok(fn) => FnName(fn)
    case AndKw => "AND"
    case OrKw => "OR"
    case NotKw => "NOT"
    case InKw => "IN"
  }

  // The one word a text can be, going by its length, its first letter and its
  // last two.
  function Candidate(n: nat, a: char, y: char, z: char): (t: Token)
    ensures IsWord(t)
  {
    match n
    case 2 => if a == 'O' then OrKw else InKw
    case 3 => if a == 'h' then FnTok(FnHas) else if a == 'A' then AndKw else NotKw
    case 4 => if a == 'v' then ColumnTok(Verb) else ColumnTok(Username)
    case 7 => ColumnTok(Summary)
    case 8 =>
      if a == 'a' then ColumnTok(AuditID)
      else if a == 'r' then ColumnTok(ResourceType)
      else if a == 'u' then ColumnTok(UserUID)
      else if a == 'e' then FnTok(FnEndsWith)
      else FnTok(FnPosition)
    case 9 =>
      if a == 't' then ColumnTok(Timestamp)
      else if a == 'a' && z == 'd' then ColumnTok(ActorUID)
      else if a == 'a' && z == 'p' then ColumnTok(ApiGroup)
      else ColumnTok(Namespace)
    case 10 =>
      if a == 'a' && z == 'e' && y == 'm' then ColumnTok(ActorName)
      else if a == 'a' && z == 'e' && y == 'p' then ColumnTok(ActorType)
      else if a == 's' && z == 'e' && y == 'p' then ColumnTok(ScopeType)
      else if a == 's' && z == 'e' && y == 'm' then ColumnTok(ScopeName)
      else FnTok(FnStartsWith)
    case 11 =>
      if a == 'o' then ColumnTok(OriginType)
      else if a == 's' && z == 'y' then ColumnTok(SourceCity)
      else if a == 's' && z == 'e' then ColumnTok(StatusCode)
      else if a == 't' && z == 'e' && y == 'p' then ColumnTok(TenantType)
      else ColumnTok(TenantName)
    case 12 => if a == 'r' && z == 'd' then ColumnTok(ResourceUID) else ColumnTok(RelatedUIDList)
    case 13 =>
      if a == 'r' && z == 'd' then ColumnTok(ResourceKind)
      else if a == 'r' && z == 'e' then ColumnTok(ResourceName)
      else if a == 's' then ColumnTok(SourceRegion)
      else if a == 'c' then ColumnTok(ChangeSource)
      else if a == 'a' then ColumnTok(ActivityName)
      else FnTok(FnHour)
    case 14 => ColumnTok(SourceCluster)
    case 17 => ColumnTok(SourcePlaneType)
    case 18 => if a == 'r' then ColumnTok(ResourceNamespace) else ColumnTok(ActivityNamespace)
    case 29 => FnTok(FnSearch)
    case _ => AndKw
  }

  function WordToken(w: string): Option<Token> {
    if |w| < 2 then None
    else
      var t := Candidate(|w|, w[0], w[|w| - 2], w[|w| - 1]);
      if WordText(t) == w then Some(t) else None
  }

  lemma ShortColumnFound(c: Column)
    requires |ColumnName(c)| < 11
    ensures WordToken(ColumnName(c)) == Some(ColumnTok(c))
  {
  }

  lemma LongColumnFound(c: Column)
    requires |ColumnName(c)| >= 11
    ensures WordToken(ColumnName(c)) == Some(ColumnTok(c))
  {
  }

  lemma ColumnFound(c: Column)
    ensures WordToken(ColumnName(c)) == Some(ColumnTok(c))
  {
    if |ColumnName(c)| < 11 {
      ShortColumnFound(c);
    } else {
      LongColumnFound(c);
    }
  }

  lemma FunctionFound(fn: Fn)
    ensures WordToken(FnName(fn)) == Some(FnTok(fn))
  {
  }

  lemma WordFound(t: Token)
    requires IsWord(t)
    ensures WordToken(WordText(t)) == Some(t)
  {
    match t
    case ColumnTok(c) => ColumnFound(c);
    case FnTok(fn) => FunctionFound(fn);
    case _ =>
  }

  predicate AllWord(w: string) {
    forall i :: 0 <= i < |w| ==> WordChar(w[i])
  }

  // A word is made of letters and underscores and begins with a letter.
  predicate Wordlike(w: string) {
    w != "" && AllWord(w) && !DigitChar(w[0])
  }

  lemma ResourceNamesWordlike(c: Column)
    requires c.ResourceKind? || c.ResourceName? || c.ResourceNamespace? || c.ResourceUID? || c.ResourceType?
    ensures Wordlike(ColumnName(c))
  {
  }

  lemma SourceNamesWordlike(c: Column)
    requires c.SourcePlaneType? || c.SourceCluster? || c.SourceRegion? || c.SourceCity? || c.OriginType? || c.ChangeSource?
    ensures Wordlike(ColumnName(c))
  {
  }

  lemma ActivityNamesWordlike(c: Column)
    requires c.ActivityName? || c.ActivityNamespace? || c.Summary? || c.RelatedUIDList? || c.Timestamp? || c.ApiGroup?
    ensures Wordlike(ColumnName(c))
  {
  }

  lemma ActorNamesWordlike(c: Column)
    requires c.ActorName? || c.ActorType? || c.ActorUID? || c.TenantType? || c.TenantName? || c.ScopeType? || c.ScopeName?
    ensures Wordlike(ColumnName(c))
  {
  }

  lemma AuditNamesWordlike(c: Column)
    requires c.AuditID? || c.Verb? || c.Namespace? || c.Username? || c.UserUID? || c.StatusCode?
    ensures Wordlike(ColumnName(c))
  {
  }

  lemma ColumnWordlike(c: Column)
    ensures Wordlike(ColumnName(c))
  {
    if c.ResourceKind? || c.ResourceName? || c.ResourceNamespace? || c.ResourceUID? || c.ResourceType? {
      ResourceNamesWordlike(c);
    } else if c.SourcePlaneType? || c.SourceCluster? || c.SourceRegion? || c.SourceCity? || c.OriginType? || c.ChangeSource? {
      SourceNamesWordlike(c);
    } else if c.ActivityName? || c.ActivityNamespace? || c.Summary? || c.RelatedUIDList? || c.Timestamp? || c.ApiGroup? {
      ActivityNamesWordlike(c);
    } else if c.AuditID? || c.Verb? || c.Namespace? || c.Username? || c.UserUID? || c.StatusCode? {
      AuditNamesWordlike(c);
    } else {
      ActorNamesWordlike(c);
    }
  }

  lemma FunctionWordlike(fn: Fn)
    ensures Wordlike(FnName(fn))
  {
  }

  lemma WordIsWordlike(t: Token)
    requires IsWord(t)
    ensures Wordlike(WordText(t))
  {
    match t
    case ColumnTok(c) => ColumnWordlike(c);
    case FnTok(fn) => FunctionWordlike(fn);
    case _ =>
  }

  // ---------------------------------------------------------------------
  // Numbers
  // ---------------------------------------------------------------------

  predicate AllDigits(w: string) {
    forall i :: 0 <= i < |w| ==> DigitChar(w[i])
  }

  function DecimalValue(w: string): nat
    requires AllDigits(w)
  {
    if w == "" then 0 else 10 * DecimalValue(w[..|w| - 1]) + (w[|w| - 1] as int - '0' as int)
  }

  lemma {:induction false} DecimalIsValue(n: nat)
    ensures Decimal(n) != "" && AllDigits(Decimal(n)) && DecimalValue(Decimal(n)) == n
  {
    if n < 10 {
      assert Decimal(n)[..0] == "";
    } else {
      DecimalIsValue(n / 10);
      assert Decimal(n)[..|Decimal(n)| - 1] == Decimal(n / 10);
    }
  }

  // ---------------------------------------------------------------------
  // The lexer
  // ---------------------------------------------------------------------

  // How many letters, digits and underscores a text begins with.
  function WordLen(s: string): (n: nat)
    ensures n <= |s| && (n < |s| ==> !WordChar(s[n]))
    ensures forall i :: 0 <= i < n ==> WordChar(s[i])
  {
    if s == "" || !WordChar(s[0]) then 0 else 1 + WordLen(s[1..])
  }

  // Where the closing quote of a literal is.
  function QuoteAt(s: string): (n: nat)
    ensures n <= |s| && (n < |s| ==> s[n] == '\'')
    ensures forall i :: 0 <= i < n ==> s[i] != '\''
  {
    if s == "" || s[0] == '\'' then 0 else 1 + QuoteAt(s[1..])
  }

  // A token at the front of a text that does not begin with a space, and its
  // length.
  datatype First = Unknown | Taken(t: Token, length: nat)

  function Punctuation(c: char): Option<Token> {
    match c
    case '(' => Some(LParen)
    case ')' => Some(RParen)
    case '[' => Some(LBracket)
    case ']' => Some(RBracket)
    case ',' => Some(Comma)
    case '?' => Some(Mark)
    case _ => None
  }

  function LexOperator(s: string): First
    requires s != ""
  {
    var equals := |s| > 1 && s[1] == '=';
    match s[0]
    case '=' => Taken(CompareTok(Eq), 1)
    case '!' => if equals then Taken(CompareTok(Ne), 2) else Unknown
    case '>' => if equals then Taken(CompareTok(Ge), 2) else Taken(CompareTok(Gt), 1)
    case '<' => if equals then Taken(CompareTok(Le), 2) else Taken(CompareTok(Lt), 1)
    case _ => Unknown
  }

  function LexWord(w: string): Option<Token>
    requires w != ""
  {
    if AllDigits(w) then Some(Number(DecimalValue(w))) else WordToken(w)
  }

  const ARG := "{arg"

  function LexPlaceholder(s: string): First {
    if |s| < 4 || s[..4] != ARG then Unknown
    else
      var n := WordLen(s[4..]);
      if n == 0 || !AllDigits(s[4..4 + n]) || 4 + n == |s| || s[4 + n] != '}' then Unknown
      else Taken(Placeholder(DecimalValue(s[4..4 + n])), 5 + n)
  }

  function LexLiteral(s: string): First
    requires s != ""
  {
    var n := QuoteAt(s[1..]);
    if 1 + n == |s| then Unknown else Taken(Literal(s[1..1 + n]), n + 2)
  }

  function LexLeadingWord(s: string): (f: First)
    requires s != "" && WordChar(s[0])
    ensures f.Taken? ==> 1 <= f.length <= |s|
  {
    var n := WordLen(s);
    match LexWord(s[..n])
    case Some(t) => Taken(t, n)
    case None => Unknown
  }

  function LexFirst(s: string): (f: First)
    requires s != ""
    ensures f.Taken? ==> 1 <= f.length <= |s|
  {
    var c := s[0];
    if Punctuation(c).Some? then Taken(Punctuation(c).value, 1)
    else if c == '{' then LexPlaceholder(s)
    else if c == '\'' then LexLiteral(s)
    else if WordChar(c) then LexLeadingWord(s)
    else LexOperator(s)
  }

  function Lex(s: string): Option<seq<Token>> {
    if s == "" then Some([])
    else if s[0] == ' ' then Lex(s[1..])
    else match LexFirst(s)
      case Unknown => None
      case Taken(t, n) =>
        match Lex(s[n..])
        case None => None
        case Some(ts) => Some([t] + ts)
  }

  // ---------------------------------------------------------------------
  // Spelled tokens
  // ---------------------------------------------------------------------

  // The token's text would run into a letter or digit behind it, or begins with
  // one.
  predicate Open(t: Token) {
    t.ColumnTok? || t.FnTok? || t.Number?
  }

  predicate Opens(t: Token) {
    Open(t) || t.NotKw?
  }

  // Quotes inside a literal would end it.
  predicate Spellable(t: Token) {
    t.Literal? ==> forall i :: 0 <= i < |t.s| ==> t.s[i] != '\''
  }

  predicate Apart(t: Token, u: Token) {
    !(Open(t) && Opens(u))
  }

  predicate Separated(ts: seq<Token>) {
    && (forall i :: 0 <= i < |ts| ==> Spellable(ts[i]))
    && (forall i :: 0 <= i < |ts| - 1 ==> Apart(ts[i], ts[i + 1]))
  }

  predicate NoWordAt(s: string) {
    s == "" || !WordChar(s[0])
  }

  lemma WordLenOf(w: string, rest: string)
    requires AllWord(w) && NoWordAt(rest)
    ensures WordLen(w + rest) == |w|
  {
    var s := w + rest;
    assert forall i :: 0 <= i < |w| ==> s[i] == w[i];
    assert rest != "" ==> s[|w|] == rest[0];
  }

  lemma QuoteAtOf(w: string, rest: string)
    requires forall i :: 0 <= i < |w| ==> w[i] != '\''
    ensures QuoteAt(w + "'" + rest) == |w|
  {
    var s := w + "'" + rest;
    assert s[|w|] == '\'';
    assert forall i :: 0 <= i < |w| ==> s[i] == w[i];
  }

  // The text of a token without the spaces around it.
  function Bare(t: Token): string {
    match t
    case Comma => ","
    case AndKw => "AND"
    case OrKw => "OR"
    case NotKw => "NOT"
    case InKw => "IN"
    case CompareTok(op) => Spelling(op)
    case _ => TokenText(t)
  }

  lemma WordTaken(w: string, t: Token, rest: string)
    requires w != "" && AllWord(w) && NoWordAt(rest) && LexWord(w) == Some(t)
    ensures (w + rest)[0] == w[0] && LexLeadingWord(w + rest) == Taken(t, |w|)
  {
    WordLenOf(w, rest);
    assert (w + rest)[..|w|] == w && (w + rest)[0] == w[0];
  }

  lemma WordNext(s: string)
    requires s != "" && WordChar(s[0])
    ensures s[0] != ' ' && LexFirst(s) == LexLeadingWord(s)
  {
  }

  lemma WordFirst(t: Token, rest: string)
    requires (IsWord(t) || t.Number?) && NoWordAt(rest)
    ensures var s := Bare(t) + rest; s != "" && s[0] != ' ' && LexFirst(s) == Taken(t, |Bare(t)|)
  {
    var w := Bare(t);
    if t.Number? {
      DecimalIsValue(t.v);
    } else {
      WordIsWordlike(t);
      WordFound(t);
      assert w == WordText(t);
    }
    WordTaken(w, t, rest);
    WordNext(w + rest);
  }

  lemma PlaceholderFirst(n: nat, rest: string)
    ensures var s := TokenText(Placeholder(n)) + rest;
            s[0] != ' ' && LexFirst(s) == Taken(Placeholder(n), |TokenText(Placeholder(n))|)
  {
    var w := Decimal(n);
    var s := TokenText(Placeholder(n)) + rest;
    DecimalIsValue(n);
    assert s == ARG + w + "}" + rest;
    assert s[..4] == ARG && s[4..] == w + ("}" + rest);
    WordLenOf(w, "}" + rest);
    assert s[4..4 + |w|] == w && s[4 + |w|] == '}';
  }

  lemma LiteralFirst(w: string, rest: string)
    requires Spellable(Literal(w))
    ensures var s := TokenText(Literal(w)) + rest;
            s[0] != ' ' && LexFirst(s) == Taken(Literal(w), |TokenText(Literal(w))|)
  {
    var s := TokenText(Literal(w)) + rest;
    assert s[1..] == w + "'" + rest;
    QuoteAtOf(w, rest);
    assert s[1..1 + |w|] == w;
  }

  lemma OperatorFirst(op: CompareOp, rest: string)
    requires rest != "" && rest[0] == ' '
    ensures var s := Spelling(op) + rest; s[0] != ' ' && LexFirst(s) == Taken(CompareTok(op), |Spelling(op)|)
  {
  }

  // What follows a token's own text in the spelled text.
  function Trailing(t: Token): string {
    if t.Comma? || t.AndKw? || t.OrKw? || t.NotKw? || t.InKw? || t.CompareTok? then " " else ""
  }

  function Leading(t: Token): string {
    if t.AndKw? || t.OrKw? || t.InKw? || t.CompareTok? then " " else ""
  }

  lemma TokenTextIs(t: Token)
    ensures TokenText(t) == Leading(t) + Bare(t) + Trailing(t)
  {
  }

  lemma BareFirst(t: Token, rest: string)
    requires Spellable(t) && (Open(t) ==> NoWordAt(rest))
    ensures var s := Bare(t) + (Trailing(t) + rest); s != "" && s[0] != ' ' && LexFirst(s) == Taken(t, |Bare(t)|)
  {
    var more := Trailing(t) + rest;
    if IsWord(t) || t.Number? {
      WordFirst(t, more);
    } else if t.Placeholder? {
      PlaceholderFirst(t.n, more);
    } else if t.Literal? {
      LiteralFirst(t.s, more);
    } else if t.CompareTok? {
      OperatorFirst(t.op, more);
    }
  }

  lemma LexSpace(s: string, t: string)
    requires s == " " || s == ""
    ensures Lex(s + t) == Lex(t)
  {
    assert s == "" ==> s + t == t;
    assert s == " " ==> (s + t)[1..] == t;
  }

  lemma LexTaken(w: string, rest: string, t: Token)
    requires w + rest != "" && (w + rest)[0] != ' ' && LexFirst(w + rest) == Taken(t, |w|)
    ensures Lex(w + rest) == match Lex(rest) case None => None case Some(ts) => Some([t] + ts)
  {
    assert (w + rest)[|w|..] == rest;
  }

  lemma LexSpaced(lead: string, w: string, trail: string, rest: string, t: Token)
    requires (lead == "" || lead == " ") && (trail == "" || trail == " ")
    requires w + (trail + rest) != "" && (w + (trail + rest))[0] != ' ' && LexFirst(w + (trail + rest)) == Taken(t, |w|)
    ensures Lex(lead + w + trail + rest) == match Lex(rest) case None => None case Some(ts) => Some([t] + ts)
  {
    assert lead + w + trail + rest == lead + (w + (trail + rest));
    LexSpace(lead, w + (trail + rest));
    LexTaken(w, trail + rest, t);
    LexSpace(trail, rest);
  }

  // A token's text at the front is read as that token.
  lemma LexStep(t: Token, rest: string)
    requires Spellable(t) && (Open(t) ==> NoWordAt(rest))
    ensures Lex(TokenText(t) + rest) == match Lex(rest) case None => None case Some(ts) => Some([t] + ts)
  {
    BareFirst(t, rest);
    TokenTextIs(t);
    LexSpaced(Leading(t), Bare(t), Trailing(t), rest, t);
  }

  lemma TextStart(ts: seq<Token>)
    requires ts == [] || !Opens(ts[0])
    ensures NoWordAt(Text(ts))
  {
    if ts != [] {
      assert TokenText(ts[0]) != "" && !WordChar(TokenText(ts[0])[0]);
    }
  }

  // The spelled text of separated tokens is read as those tokens.
  lemma {:induction false} LexText(ts: seq<Token>)
    requires Separated(ts)
    ensures Lex(Text(ts)) == Some(ts)
  {
    if ts != [] {
      assert Separated(ts[1..]);
      LexText(ts[1..]);
      if Open(ts[0]) {
        assert |ts| > 1 ==> Apart(ts[0], ts[1]);
        TextStart(ts[1..]);
      }
      LexStep(ts[0], Text(ts[1..]));
      assert [ts[0]] + ts[1..] == ts;
    }
  }
}
