/**
 NATS subjects of exported events, the grants a leaf cluster holds on them,
 and NATS token matching.
 */
module Subjects {
  import opened Prelude
  import opened Strings

  // ---------------------------------------------------------------------
  // Tokens
  // ---------------------------------------------------------------------

  function Tokens(s: string): seq<string> {
    Split(s, '.')
  }

  lemma TokensOfJoined(a: string, b: string)
    ensures Tokens(a + "." + b) == Tokens(a) + Tokens(b)
  {
    SplitJoined(a, '.', b);
  }

  predicate DotFree(s: string) {
    Without(s, '.')
  }

  lemma DotFreeToken(s: string)
    requires DotFree(s)
    ensures Tokens(s) == [s]
  {
    SplitFree(s, '.');
  }

  // `*` matches one token and a last `>` one or more.
  predicate Matches(pattern: seq<string>, subject: seq<string>) {
    if pattern == [] then subject == []
    else if pattern == [">"] then subject != []
    else subject != [] && (pattern[0] == "*" || pattern[0] == subject[0]) && Matches(pattern[1..], subject[1..])
  }

  predicate Granted(grant: string, subject: string) {
    Matches(Tokens(grant), Tokens(subject))
  }

  // ---------------------------------------------------------------------
  // Subjects and grants
  // ---------------------------------------------------------------------

  predicate LabelChar(c: char) {
    'a' <= c <= 'z' || '0' <= c <= '9'
  }

  // ^[a-z0-9]([-a-z0-9]{0,61}[a-z0-9])?$
  predicate ValidClusterName(name: string) {
    1 <= |name| <= 63 && LabelChar(name[0]) && LabelChar(name[|name| - 1]) &&
    forall i :: 0 <= i < |name| ==> LabelChar(name[i]) || name[i] == '-'
  }

  // The pattern: one label character, or two with at most 61 characters between.
  ghost predicate IsLabel(name: string) {
    || (|name| == 1 && LabelChar(name[0]))
    || exists first, last, inner :: Bracketed(name, first, inner, last)
  }

  ghost predicate Bracketed(name: string, first: char, inner: string, last: char) {
    && name == [first] + inner + [last] && LabelChar(first) && LabelChar(last) && |inner| <= 61
    && forall i :: 0 <= i < |inner| ==> inner[i] == '-' || 'a' <= inner[i] <= 'z' || '0' <= inner[i] <= '9'
  }

  lemma ValidNameIsLabel(name: string)
    ensures ValidClusterName(name) <==> IsLabel(name)
  {
    if ValidClusterName(name) && |name| > 1 {
      var inner := name[1..|name| - 1];
      assert name == [name[0]] + inner + [name[|name| - 1]];
      assert Bracketed(name, name[0], inner, name[|name| - 1]);
    }
    if first, last, inner :| Bracketed(name, first, inner, last) {
      forall i | 0 <= i < |name| ensures LabelChar(name[i]) || name[i] == '-' {
        assert 0 < i < |name| - 1 ==> name[i] == inner[i - 1];
      }
    }
  }

  function EventSubject(prefix: string, cluster: string, namespace: string): string {
    if cluster == "" then prefix + "." + namespace else prefix + "." + cluster + "." + namespace
  }

  function EventSubjectGrant(prefix: string, cluster: string): string {
    prefix + "." + cluster + ".*"
  }

  function EventInboxPrefix(cluster: string): string {
    "_INBOX_" + cluster
  }

  function EventInboxGrant(cluster: string): string {
    EventInboxPrefix(cluster) + ".>"
  }

  // ---------------------------------------------------------------------
  // Isolation
  // ---------------------------------------------------------------------

  lemma {:induction false} MatchesPrefix(p: seq<string>, pattern: seq<string>, subject: seq<string>)
    requires pattern != []
    ensures Matches(p + pattern, p + subject) <==> Matches(pattern, subject)
  {
    if p == [] {
      assert p + pattern == pattern && p + subject == subject;
    } else {
      assert (p + pattern)[1..] == p[1..] + pattern && (p + subject)[1..] == p[1..] + subject;
      assert p + pattern != [">"];
      MatchesPrefix(p[1..], pattern, subject);
    }
  }

  lemma TokensOfGrant(prefix: string, cluster: string)
    requires ValidClusterName(cluster)
    ensures Tokens(EventSubjectGrant(prefix, cluster)) == Tokens(prefix) + [cluster, "*"]
  {
    assert EventSubjectGrant(prefix, cluster) == prefix + "." + cluster + "." + "*";
    TokensOfJoined(prefix + "." + cluster, "*");
    TokensOfJoined(prefix, cluster);
    DotFreeToken(cluster);
    DotFreeToken("*");
  }

  lemma TokensOfSubject(prefix: string, cluster: string, namespace: string)
    requires ValidClusterName(cluster) && DotFree(namespace)
    ensures Tokens(EventSubject(prefix, cluster, namespace)) == Tokens(prefix) + [cluster, namespace]
  {
    TokensOfJoined(prefix + "." + cluster, namespace);
    TokensOfJoined(prefix, cluster);
    DotFreeToken(cluster);
    DotFreeToken(namespace);
  }

  lemma TwoTokens(a: string, b: string, c: string)
    requires a != "*" && a != ">"
    ensures Matches([a, "*"], [b, c]) <==> a == b
  {
    assert [a, "*"][1..] == ["*"] && [b, c][1..] == [c];
    assert ["*"][1..] == [] && [c][1..] == [];
    assert Matches(["*"], [c]);
    assert [a, "*"] != [">"] by {
      assert |[a, "*"]| == 2;
    }
  }

  // A published event subject matches a cluster's grant exactly when the
  // event is that cluster's own.
  lemma PublishIsolated(prefix: string, holder: string, publisher: string, namespace: string)
    requires ValidClusterName(holder) && ValidClusterName(publisher) && DotFree(namespace)
    ensures Granted(EventSubjectGrant(prefix, holder), EventSubject(prefix, publisher, namespace)) <==> holder == publisher
  {
    TokensOfGrant(prefix, holder);
    TokensOfSubject(prefix, publisher, namespace);
    MatchesPrefix(Tokens(prefix), [holder, "*"], [publisher, namespace]);
    TwoTokens(holder, publisher, namespace);
  }

  // Events published without a cluster match no cluster's grant.
  lemma UnfederatedNotGranted(prefix: string, holder: string, namespace: string)
    requires ValidClusterName(holder) && DotFree(namespace)
    ensures !Granted(EventSubjectGrant(prefix, holder), EventSubject(prefix, "", namespace))
  {
    TokensOfGrant(prefix, holder);
    TokensOfJoined(prefix, namespace);
    DotFreeToken(namespace);
    MatchesPrefix(Tokens(prefix), [holder, "*"], [namespace]);
    assert [holder, "*"][1..] == ["*"] && [namespace][1..] == [];
    assert !Matches(["*"], []);
    assert |[holder, "*"]| == 2;
  }

  lemma InboxTokens(cluster: string)
    requires ValidClusterName(cluster)
    ensures Tokens(EventInboxGrant(cluster)) == ["_INBOX_" + cluster, ">"]
  {
    assert DotFree("_INBOX_" + cluster);
    DotFreeToken("_INBOX_" + cluster);
    DotFreeToken(">");
    TokensOfJoined("_INBOX_" + cluster, ">");
    assert EventInboxGrant(cluster) == "_INBOX_" + cluster + "." + ">";
  }

  // No subject lies in two clusters' inbox grants, or in a cluster's and the
  // processor's.
  lemma InboxesDisjoint(a: string, b: string, subject: string)
    requires ValidClusterName(a) && ValidClusterName(b) && Granted(EventInboxGrant(a), subject)
    ensures Granted(EventInboxGrant(b), subject) <==> a == b
    ensures !Granted("_INBOX.>", subject)
  {
    var x, y := "_INBOX_" + a, "_INBOX_" + b;
    InboxTokens(a);
    InboxTokens(b);
    assert x[0] == '_' && y[0] == '_';
    assert x[|"_INBOX_"|..] == a && y[|"_INBOX_"|..] == b;
    ProcessorInbox();
    assert |x| > |"_INBOX"|;
  }

  lemma ProcessorInbox()
    ensures Tokens("_INBOX.>") == ["_INBOX", ">"]
  {
    DotFreeToken("_INBOX");
    DotFreeToken(">");
    TokensOfJoined("_INBOX", ">");
    assert "_INBOX" + "." + ">" == "_INBOX.>";
  }
}
