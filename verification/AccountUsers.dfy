/**
 The users of the account that leaf clusters connect to, and what each of them
 may publish and receive.
 */
module AccountUsers {
  import opened Prelude
  import opened Subjects

  datatype User = User(
    user: string,
    nkey: Option<string>,
    connectionTypes: seq<string>,
    publish: seq<string>,
    subscribe: seq<string>)

  function NkeyUser(subjectPrefix: string, cluster: string, publicKey: string): User {
    User("", Some(publicKey), ["LEAFNODE"], [EventSubjectGrant(subjectPrefix, cluster)], [EventInboxGrant(cluster)])
  }

  function StaticUsers(): seq<User> {
    [User("CN=nack.nats.client", None, ["STANDARD"], [">"], [">"]),
     User("CN=activity-processor-nats-client", None, ["STANDARD"], ["$JS.API.>", "$JS.ACK.>"], ["_INBOX.>"])]
  }

  // The users written for some clusters and keys.
  function UsersFor(subjectPrefix: string, keys: seq<(string, string)>): seq<User> {
    StaticUsers() + seq(|keys|, i requires 0 <= i < |keys| => NkeyUser(subjectPrefix, keys[i].0, keys[i].1))
  }

  function Clusters(keys: seq<(string, string)>): seq<string> {
    seq(|keys|, i requires 0 <= i < |keys| => keys[i].0)
  }

  lemma UsersForMore(subjectPrefix: string, keys: seq<(string, string)>, cluster: string, key: string)
    ensures UsersFor(subjectPrefix, keys + [(cluster, key)]) == UsersFor(subjectPrefix, keys) + [NkeyUser(subjectPrefix, cluster, key)]
    ensures Clusters(keys + [(cluster, key)]) == Clusters(keys) + [cluster]
  {
  }

  // ---------------------------------------------------------------------
  // What a user may do
  // ---------------------------------------------------------------------

  predicate MayPublish(u: User, subject: string) {
    exists i :: 0 <= i < |u.publish| && Granted(u.publish[i], subject)
  }

  predicate MayReceive(u: User, subject: string) {
    exists i :: 0 <= i < |u.subscribe| && Granted(u.subscribe[i], subject)
  }

  // No token of the prefix is a wildcard.
  predicate Plain(prefix: string) {
    "*" !in Tokens(prefix) && ">" !in Tokens(prefix)
  }

  // Its own cluster's events, and no other cluster's nor an unfederated one.
  ghost predicate PublishesOwnEvents(u: User, prefix: string, cluster: string) {
    && (forall publisher, namespace :: ValidClusterName(publisher) && DotFree(namespace) ==>
          (MayPublish(u, prefix + "." + publisher + "." + namespace) <==> publisher == cluster))
    && (forall namespace :: DotFree(namespace) ==> !MayPublish(u, prefix + "." + namespace))
    && (Plain(prefix) ==> forall subject :: MayPublish(u, subject) <==> IsOwnEvent(prefix, cluster, subject))
  }

  // The subject is that of an event of this cluster.
  ghost predicate IsOwnEvent(prefix: string, cluster: string, subject: string) {
    exists last :: Tokens(subject) == Tokens(prefix) + [cluster, last]
  }

  // A leaf cluster's user: its key and no password, on the leaf listener only.
  ghost predicate IsLeaf(u: User, prefix: string, cluster: string, key: string) {
    && u.user == "" && u.nkey == Some(key) && u.connectionTypes == ["LEAFNODE"]
    && PublishesOwnEvents(u, prefix, cluster)
    && forall token: string :: MayReceive(u, "_INBOX_" + cluster + "." + token)
  }

  // The two certificate-mapped users, then one leaf user for each cluster;
  // what one of these receives neither another cluster's nor the processor can.
  ghost predicate Isolated(users: seq<User>, prefix: string, keys: seq<(string, string)>) {
    && |users| == 2 + |keys|
    && users[0] == User("CN=nack.nats.client", None, ["STANDARD"], [">"], [">"])
    && users[1] == User("CN=activity-processor-nats-client", None, ["STANDARD"], ["$JS.API.>", "$JS.ACK.>"], ["_INBOX.>"])
    && var leaves := users[2..];
       && (forall i :: 0 <= i < |leaves| ==> IsLeaf(leaves[i], prefix, keys[i].0, keys[i].1))
       && (forall i, subject :: 0 <= i < |leaves| && MayReceive(leaves[i], subject) ==> !MayReceive(users[1], subject))
       && (forall i, j, subject :: 0 <= i < |leaves| && 0 <= j < |leaves| && keys[i].0 != keys[j].0 ==>
             !(MayReceive(leaves[i], subject) && MayReceive(leaves[j], subject)))
  }

  lemma MayPublishOne(u: User, grant: string, subject: string)
    requires u.publish == [grant]
    ensures MayPublish(u, subject) <==> Granted(grant, subject)
  {
    assert Granted(grant, subject) ==> Granted(u.publish[0], subject);
  }

  lemma MayReceiveOne(u: User, grant: string, subject: string)
    requires u.subscribe == [grant]
    ensures MayReceive(u, subject) <==> Granted(grant, subject)
  {
    assert Granted(grant, subject) ==> Granted(u.subscribe[0], subject);
  }

  lemma {:induction false} PlainMatches(p: seq<string>, pattern: seq<string>, subject: seq<string>)
    requires "*" !in p && ">" !in p && pattern != [] && Matches(p + pattern, subject)
    ensures p <= subject
  {
    if p != [] {
      assert (p + pattern)[0] == p[0] && p[0] != ">" && p[0] != "*";
      assert (p + pattern)[1..] == p[1..] + pattern;
      assert p + pattern != [">"];
      PlainMatches(p[1..], pattern, subject[1..]);
      assert subject == [subject[0]] + subject[1..] && p == [p[0]] + p[1..];
    }
  }

  lemma OwnEventsOnly(prefix: string, cluster: string, subject: string)
    requires ValidClusterName(cluster) && Plain(prefix)
    ensures Granted(EventSubjectGrant(prefix, cluster), subject) <==> IsOwnEvent(prefix, cluster, subject)
  {
    var p, tokens := Tokens(prefix), Tokens(subject);
    TokensOfGrant(prefix, cluster);
    if last :| tokens == p + [cluster, last] {
      MatchesPrefix(p, [cluster, "*"], [cluster, last]);
      TwoTokens(cluster, cluster, last);
    }
    if Matches(p + [cluster, "*"], tokens) {
      PlainMatches(p, [cluster, "*"], tokens);
      var rest := tokens[|p|..];
      assert tokens == p + rest;
      MatchesPrefix(p, [cluster, "*"], rest);
      assert [cluster, "*"][1..] == ["*"] && ["*"][1..] == [] && |[cluster, "*"]| == 2;
      assert Matches(["*"], rest[1..]) && Matches([], rest[1..][1..]);
      assert rest == [cluster, rest[1]];
      assert tokens == p + [cluster, rest[1]];
    }
  }

  lemma LeafPublishes(prefix: string, cluster: string, key: string)
    requires ValidClusterName(cluster)
    ensures PublishesOwnEvents(NkeyUser(prefix, cluster, key), prefix, cluster)
  {
    var u, grant := NkeyUser(prefix, cluster, key), EventSubjectGrant(prefix, cluster);
    forall publisher, namespace | ValidClusterName(publisher) && DotFree(namespace)
      ensures MayPublish(u, prefix + "." + publisher + "." + namespace) <==> publisher == cluster
    {
      MayPublishOne(u, grant, prefix + "." + publisher + "." + namespace);
      PublishIsolated(prefix, cluster, publisher, namespace);
    }
    forall namespace | DotFree(namespace) ensures !MayPublish(u, prefix + "." + namespace) {
      MayPublishOne(u, grant, prefix + "." + namespace);
      UnfederatedNotGranted(prefix, cluster, namespace);
    }
    if Plain(prefix) {
      forall subject ensures MayPublish(u, subject) <==> IsOwnEvent(prefix, cluster, subject) {
        MayPublishOne(u, grant, subject);
        OwnEventsOnly(prefix, cluster, subject);
      }
    }
  }

  lemma OwnInbox(cluster: string, token: string)
    requires ValidClusterName(cluster)
    ensures Granted(EventInboxGrant(cluster), "_INBOX_" + cluster + "." + token)
  {
    InboxTokens(cluster);
    TokensOfJoined("_INBOX_" + cluster, token);
    DotFreeToken("_INBOX_" + cluster);
    MatchesPrefix(["_INBOX_" + cluster], [">"], Tokens(token));
    assert ["_INBOX_" + cluster] + [">"] == ["_INBOX_" + cluster, ">"];
  }

  lemma LeafIs(prefix: string, cluster: string, key: string)
    requires ValidClusterName(cluster)
    ensures IsLeaf(NkeyUser(prefix, cluster, key), prefix, cluster, key)
  {
    var u := NkeyUser(prefix, cluster, key);
    LeafPublishes(prefix, cluster, key);
    forall token: string ensures MayReceive(u, "_INBOX_" + cluster + "." + token) {
      MayReceiveOne(u, EventInboxGrant(cluster), "_INBOX_" + cluster + "." + token);
      OwnInbox(cluster, token);
    }
  }

  // A leaf user receives nothing that the processor does.
  lemma LeafUnheard(prefix: string, cluster: string, key: string, subject: string)
    requires ValidClusterName(cluster)
    ensures !(MayReceive(NkeyUser(prefix, cluster, key), subject) && MayReceive(StaticUsers()[1], subject))
  {
    MayReceiveOne(NkeyUser(prefix, cluster, key), EventInboxGrant(cluster), subject);
    MayReceiveOne(StaticUsers()[1], "_INBOX.>", subject);
    if Granted(EventInboxGrant(cluster), subject) {
      InboxesDisjoint(cluster, cluster, subject);
    }
  }

  // Nor anything that another leaf user does.
  lemma LeavesApart(prefix: string, cluster: string, key: string, cluster': string, key': string, subject: string)
    requires ValidClusterName(cluster) && ValidClusterName(cluster') && cluster != cluster'
    ensures !(MayReceive(NkeyUser(prefix, cluster, key), subject) && MayReceive(NkeyUser(prefix, cluster', key'), subject))
  {
    MayReceiveOne(NkeyUser(prefix, cluster, key), EventInboxGrant(cluster), subject);
    MayReceiveOne(NkeyUser(prefix, cluster', key'), EventInboxGrant(cluster'), subject);
    if Granted(EventInboxGrant(cluster), subject) {
      InboxesDisjoint(cluster, cluster', subject);
    }
  }

  lemma LeavesAre(prefix: string, keys: seq<(string, string)>)
    requires forall i :: 0 <= i < |keys| ==> ValidClusterName(keys[i].0)
    ensures var leaves := UsersFor(prefix, keys)[2..];
            && |leaves| == |keys|
            && (forall i :: 0 <= i < |leaves| ==> leaves[i] == NkeyUser(prefix, keys[i].0, keys[i].1))
            && (forall i :: 0 <= i < |leaves| ==> IsLeaf(leaves[i], prefix, keys[i].0, keys[i].1))
  {
    var leaves := UsersFor(prefix, keys)[2..];
    assert forall i :: 0 <= i < |keys| ==> leaves[i] == NkeyUser(prefix, keys[i].0, keys[i].1);
    forall i | 0 <= i < |leaves| ensures IsLeaf(leaves[i], prefix, keys[i].0, keys[i].1) {
      LeafIs(prefix, keys[i].0, keys[i].1);
    }
  }

  // The users written for valid clusters are isolated from each other.
  lemma UsersIsolated(prefix: string, keys: seq<(string, string)>)
    requires forall i :: 0 <= i < |keys| ==> ValidClusterName(keys[i].0)
    ensures Isolated(UsersFor(prefix, keys), prefix, keys)
  {
    var users := UsersFor(prefix, keys);
    var leaves := users[2..];
    LeavesAre(prefix, keys);
    forall i, subject | 0 <= i < |leaves| && MayReceive(leaves[i], subject) ensures !MayReceive(users[1], subject) {
      LeafUnheard(prefix, keys[i].0, keys[i].1, subject);
    }
    forall i, j, subject | 0 <= i < |leaves| && 0 <= j < |leaves| && keys[i].0 != keys[j].0
      ensures !(MayReceive(leaves[i], subject) && MayReceive(leaves[j], subject))
    {
      LeavesApart(prefix, keys[i].0, keys[i].1, keys[j].0, keys[j].1, subject);
    }
  }
}
