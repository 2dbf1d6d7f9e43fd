/**
 The NKey generator: keys for leaf clusters, and the guarded rewrite of the
 list of authorised users, with other writers at work between API calls.
 */
module NkeyGenerator {
  import opened Prelude
  import opened Subjects
  import opened AccountUsers

  datatype Config = Config(secretPrefix: string, subjectPrefix: string)

  function SecretName(cfg: Config, cluster: string): string {
    cfg.secretPrefix + "-" + cluster
  }

  // ---------------------------------------------------------------------
  // The cluster a user belongs to
  // ---------------------------------------------------------------------

  function CutPrefix(s: string, p: string): Option<string> {
    if p <= s then Some(s[|p|..]) else None
  }

  function CutSuffix(s: string, p: string): Option<string> {
    if |p| <= |s| && s[|s| - |p|..] == p then Some(s[..|s| - |p|]) else None
  }

  function ClusterOfSubject(subject: string, subjectPrefix: string): Option<string> {
    match CutPrefix(subject, subjectPrefix + ".")
    case None => None
    case Some(rest) => CutSuffix(rest, ".*")
  }

  function FirstCluster(subjects: seq<string>, subjectPrefix: string, fallback: string): string {
    if subjects == [] then fallback
    else match ClusterOfSubject(subjects[0], subjectPrefix)
      case Some(cluster) => cluster
      case None => FirstCluster(subjects[1..], subjectPrefix, fallback)
  }

  function ClusterFromUser(u: User, subjectPrefix: string, fallback: string): string {
    FirstCluster(u.publish, subjectPrefix, fallback)
  }

  // The cluster is recovered exactly when the subject prefix is still the one
  // the user was written with.
  lemma ClusterRecoveredIff(written: string, current: string, cluster: string, publicKey: string)
    requires publicKey != cluster
    ensures ClusterFromUser(NkeyUser(written, cluster, publicKey), current, publicKey) == cluster <==> written == current
  {
    var subjects: seq<string> := [EventSubjectGrant(written, cluster)];
    var found := ClusterOfSubject(subjects[0], current);
    assert FirstCluster(subjects[1..], current, publicKey) == publicKey;
    assert FirstCluster(subjects, current, publicKey) == if found.Some? then found.value else publicKey;
    assert NkeyUser(written, cluster, publicKey).publish == subjects;
    GrantNamesClusterIff(written, current, cluster);
  }

  lemma GrantNamesClusterIff(written: string, current: string, cluster: string)
    ensures ClusterOfSubject(EventSubjectGrant(written, cluster), current) == Some(cluster) <==> written == current
  {
    var grant := EventSubjectGrant(written, cluster);
    if written == current {
      assert grant == current + "." + (cluster + ".*");
      assert grant[|current + "."|..] == cluster + ".*";
      assert (cluster + ".*")[..|cluster|] == cluster && (cluster + ".*")[|cluster|..] == ".*";
    }
    if ClusterOfSubject(grant, current) == Some(cluster) {
      NamedGrant(grant, written, current, cluster);
    }
  }

  lemma NamedGrant(grant: string, written: string, current: string, cluster: string)
    requires grant == EventSubjectGrant(written, cluster) && ClusterOfSubject(grant, current) == Some(cluster)
    ensures written == current
  {
    var rest, tail := grant[|current + "."|..], "." + cluster + ".*";
    assert rest == rest[..|rest| - 2] + rest[|rest| - 2..] == cluster + ".*";
    assert grant == current + "." + rest;
    Regroup(current, cluster);
    Regroup(written, cluster);
    SamePrefix(written, current, tail);
  }

  lemma Regroup(prefix: string, cluster: string)
    ensures prefix + "." + (cluster + ".*") == prefix + ("." + cluster + ".*")
    ensures prefix + "." + cluster + ".*" == prefix + ("." + cluster + ".*")
  {
  }

  lemma SamePrefix(a: string, b: string, tail: string)
    requires a + tail == b + tail
    ensures a == b
  {
    assert |a| == |b|;
    assert a == (a + tail)[..|a|] && b == (b + tail)[..|b|];
  }

  // ---------------------------------------------------------------------
  // The guard against dropping clusters
  // ---------------------------------------------------------------------

  datatype Seen = Present | Absent | Unreadable

  datatype Error = ApiFailure | NoPublicKey | WouldDrop(clusters: seq<string>) | Conflict

  function Keys(users: seq<User>): set<string> {
    set i | 0 <= i < |users| && users[i].nkey.Some? :: users[i].nkey.value
  }

  // The Secret that vouches for a leaf user.
  function SecretOf(cfg: Config, u: User): string
    requires u.nkey.Some?
  {
    SecretName(cfg, ClusterFromUser(u, cfg.subjectPrefix, u.nkey.value))
  }

  function DroppedNkeys(cfg: Config, prev: seq<User>, next: seq<User>, seen: string -> Seen): Result<seq<string>, Error> {
    if prev == [] then Ok([])
    else
      var n := |prev| - 1;
      match DroppedNkeys(cfg, prev[..n], next, seen)
      case Err(e) => Err(e)
      case Ok(dropped) =>
        var u := prev[n];
        if u.nkey.None? || u.nkey.value in Keys(next) then Ok(dropped)
        else match seen(SecretOf(cfg, u))
          case Present => Ok(dropped + [ClusterFromUser(u, cfg.subjectPrefix, u.nkey.value)])
          case Absent => Ok(dropped)
          case Unreadable => Err(ApiFailure)
  }

  // Each is the cluster of a previous leaf user whose key is not in the list.
  predicate Reported(cfg: Config, prev: seq<User>, next: seq<User>, clusters: seq<string>) {
    forall c :: c in clusters ==> exists i :: 0 <= i < |prev| && LosesKey(cfg, prev[i], next, c)
  }

  predicate LosesKey(cfg: Config, u: User, next: seq<User>, cluster: string) {
    u.nkey.Some? && u.nkey.value !in Keys(next) && ClusterFromUser(u, cfg.subjectPrefix, u.nkey.value) == cluster
  }

  predicate KeepsUser(cfg: Config, u: User, next: seq<User>, seen: string -> Seen) {
    u.nkey.Some? ==> u.nkey.value in Keys(next) || seen(SecretOf(cfg, u)) == Absent
  }

  // Every leaf user stays authorised or has lost its Secret.
  predicate Kept(cfg: Config, users: seq<User>, next: seq<User>, seen: string -> Seen) {
    forall i :: 0 <= i < |users| ==> KeepsUser(cfg, users[i], next, seen)
  }

  // The guard passes exactly when nothing authorised would be lost.
  lemma {:induction false} GuardPassesIff(cfg: Config, prev: seq<User>, next: seq<User>, seen: string -> Seen)
    ensures DroppedNkeys(cfg, prev, next, seen) == Ok([]) <==> Kept(cfg, prev, next, seen)
  {
    if prev != [] {
      var n := |prev| - 1;
      GuardPassesIff(cfg, prev[..n], next, seen);
    }
  }

  // ---------------------------------------------------------------------
  // One rewrite of the ConfigMap
  // ---------------------------------------------------------------------

  // `users` is None when values.yaml does not parse.
  datatype ConfigMap = ConfigMap(users: Option<seq<User>>, version: nat)

  function UsersOf(cm: Option<ConfigMap>): seq<User> {
    if cm.None? || cm.value.users.None? then [] else cm.value.users.value
  }

  // `first` is the ConfigMap when the previous users are read, `second` when
  // its version is read for the update, `last` when the write reaches the API
  // server, which accepts it only over that version.
  function Write(cfg: Config, next: seq<User>, first: Option<ConfigMap>, seen: string -> Seen,
                 second: Option<ConfigMap>, last: Option<ConfigMap>, version: nat): Result<ConfigMap, Error> {
    match DroppedNkeys(cfg, UsersOf(first), next, seen)
    case Err(e) => Err(e)
    case Ok(dropped) =>
      if dropped != [] then Err(WouldDrop(dropped))
      else if second.Some? != last.Some? || (second.Some? && second.value.version != last.value.version) then Err(Conflict)
      else Ok(ConfigMap(Some(next), version))
  }

  // A version names one content.
  predicate SameVersionSameContent(a: Option<ConfigMap>, b: Option<ConfigMap>) {
    a.Some? && b.Some? && a.value.version == b.value.version ==> a == b
  }

  // When nobody writes between the two reads, a successful write keeps every
  // leaf user of the ConfigMap it replaces.
  lemma UnracedWriteKeeps(cfg: Config, next: seq<User>, first: Option<ConfigMap>, seen: string -> Seen,
                          last: Option<ConfigMap>, version: nat)
    requires SameVersionSameContent(first, last)
    requires Write(cfg, next, first, seen, first, last, version).Ok?
    ensures last == first && Kept(cfg, UsersOf(last), next, seen)
  {
    GuardPassesIff(cfg, UsersOf(first), next, seen);
  }

  // Some user read first speaks for this one: same key, same Secret.
  predicate Covered(cfg: Config, first: seq<User>, u: User) {
    u.nkey.Some? ==>
      exists i :: 0 <= i < |first| && first[i].nkey == u.nkey && SecretOf(cfg, first[i]) == SecretOf(cfg, u)
  }

  // A write over `second`, checked against `first`, can lose nobody.
  ghost predicate NeverLoses(cfg: Config, first: Option<ConfigMap>, second: Option<ConfigMap>) {
    forall next: seq<User>, seen: string -> Seen ::
      Write(cfg, next, first, seen, second, second, 0).Ok? ==> Kept(cfg, UsersOf(second), next, seen)
  }

  ghost predicate AllCovered(cfg: Config, first: seq<User>, second: seq<User>) {
    forall i :: 0 <= i < |second| ==> Covered(cfg, first, second[i])
  }

  // The guard protects the ConfigMap being replaced exactly when each of its
  // leaf users was already there, for the same Secret, at the first read.
  lemma GuardExact(cfg: Config, first: Option<ConfigMap>, second: Option<ConfigMap>)
    ensures NeverLoses(cfg, first, second) <==> AllCovered(cfg, UsersOf(first), UsersOf(second))
  {
    if AllCovered(cfg, UsersOf(first), UsersOf(second)) {
      forall next: seq<User>, seen: string -> Seen | Write(cfg, next, first, seen, second, second, 0).Ok?
        ensures Kept(cfg, UsersOf(second), next, seen)
      {
        CoveredKept(cfg, first, second, next, seen);
      }
    } else {
      var i :| 0 <= i < |UsersOf(second)| && !Covered(cfg, UsersOf(first), UsersOf(second)[i]);
      LostWhenUncovered(cfg, first, second, i);
    }
  }

  lemma CoveredKept(cfg: Config, first: Option<ConfigMap>, second: Option<ConfigMap>, next: seq<User>, seen: string -> Seen)
    requires AllCovered(cfg, UsersOf(first), UsersOf(second))
    requires Write(cfg, next, first, seen, second, second, 0).Ok?
    ensures Kept(cfg, UsersOf(second), next, seen)
  {
    GuardPassesIff(cfg, UsersOf(first), next, seen);
    var before, users := UsersOf(first), UsersOf(second);
    forall i | 0 <= i < |users| ensures KeepsUser(cfg, users[i], next, seen) {
      assert Covered(cfg, before, users[i]);
      if users[i].nkey.Some? {
        var j :| 0 <= j < |before| && before[j].nkey == users[i].nkey && SecretOf(cfg, before[j]) == SecretOf(cfg, users[i]);
        assert KeepsUser(cfg, before[j], next, seen);
      }
    }
  }

  // The users read first, without those holding a given key.
  function Without(users: seq<User>, key: string): seq<User> {
    if users == [] then []
    else
      var n := |users| - 1;
      Without(users[..n], key) + (if users[n].nkey == Some(key) then [] else [users[n]])
  }

  lemma {:induction false} WithoutKeys(users: seq<User>, key: string)
    ensures Keys(Without(users, key)) == Keys(users) - {key}
  {
    if users != [] {
      var n := |users| - 1;
      WithoutKeys(users[..n], key);
      KeysConcat(users[..n], [users[n]]);
      assert users == users[..n] + [users[n]];
      KeysConcat(Without(users[..n], key), [users[n]]);
      KeysOfOne(users[n]);
      assert Without(users[..n], key) + [] == Without(users[..n], key);
    }
  }

  lemma KeysConcat(a: seq<User>, b: seq<User>)
    ensures Keys(a + b) == Keys(a) + Keys(b)
  {
    forall key ensures key in Keys(a + b) <==> key in Keys(a) + Keys(b) {
      if key in Keys(a) {
        var i :| 0 <= i < |a| && a[i].nkey == Some(key);
        assert (a + b)[i].nkey == Some(key);
      }
      if key in Keys(b) {
        var i :| 0 <= i < |b| && b[i].nkey == Some(key);
        assert (a + b)[|a| + i].nkey == Some(key);
      }
    }
  }

  lemma KeysOfOne(u: User)
    ensures Keys([u]) == if u.nkey.Some? then {u.nkey.value} else {}
  {
    if u.nkey.Some? {
      assert [u][0].nkey.value in Keys([u]);
    }
  }

  // The run that loses an uncovered user: every Secret still exists except
  // those that vouched for its key at the first read.
  lemma LostWhenUncovered(cfg: Config, first: Option<ConfigMap>, second: Option<ConfigMap>, i: nat)
    requires i < |UsersOf(second)| && !Covered(cfg, UsersOf(first), UsersOf(second)[i])
    ensures !NeverLoses(cfg, first, second)
  {
    var before, u := UsersOf(first), UsersOf(second)[i];
    var key := u.nkey.value;
    var next := Without(before, key);
    var seen := (name: string) =>
      if exists j :: 0 <= j < |before| && before[j].nkey == Some(key) && SecretOf(cfg, before[j]) == name then Absent else Present;
    WithoutKeys(before, key);
    forall j | 0 <= j < |before| ensures KeepsUser(cfg, before[j], next, seen) {
      if before[j].nkey.Some? && before[j].nkey != Some(key) {
        assert before[j].nkey.value in Keys(before);
      }
    }
    GuardPassesIff(cfg, before, next, seen);
    assert Write(cfg, next, first, seen, second, second, 0).Ok?;
    assert !KeepsUser(cfg, u, next, seen);
  }

  lemma SecretNamesDiffer(cfg: Config, a: string, b: string)
    ensures SecretName(cfg, a) == SecretName(cfg, b) <==> a == b
  {
    var n := |cfg.secretPrefix + "-"|;
    assert SecretName(cfg, a)[n..] == a && SecretName(cfg, b)[n..] == b;
  }

  // After a change of subject prefix the guard looks for a Secret named after
  // the key itself, so the cluster's own Secret no longer protects it.
  lemma PrefixChangeDisarmsGuard(cfg: Config, written: string, cluster: string, publicKey: string, next: seq<User>)
    requires written != cfg.subjectPrefix && publicKey != cluster && publicKey !in Keys(next)
    ensures var seen := (name: string) => if name == SecretName(cfg, cluster) then Present else Absent;
            DroppedNkeys(cfg, [NkeyUser(written, cluster, publicKey)], next, seen) == Ok([])
  {
    var u := NkeyUser(written, cluster, publicKey);
    var seen := (name: string) => if name == SecretName(cfg, cluster) then Present else Absent;
    ClusterRecoveredIff(written, cfg.subjectPrefix, cluster, publicKey);
    var found := ClusterFromUser(u, cfg.subjectPrefix, publicKey);
    SecretNamesDiffer(cfg, found, cluster);
    GuardPassesIff(cfg, [u], next, seen);
  }

  // ---------------------------------------------------------------------
  // The generator among other writers
  // ---------------------------------------------------------------------

  datatype Secret = Secret(public: string, nkey: string)

  // The key a stored Secret gives, if any.
  function PublicKey(s: Secret): Option<string> {
    if s.public != "" then Some(s.public) else if s.nkey != "" then Some(s.nkey) else None
  }

  // What one rewrite saw on its way.
  datatype Trace = Trace(first: Option<ConfigMap>, absent: set<string>, second: Option<ConfigMap>, last: Option<ConfigMap>)

  function SeenFrom(absent: set<string>): string -> Seen {
    (name: string) => if name in absent then Absent else Present
  }

  // The API server as the generator and its rivals see it.
  class Kube {
    const decommissions: bool
    var secrets: map<string, Secret>
    var config: Option<ConfigMap>
    var version: nat
    ghost var stored: set<(string, Secret)>
    // The ConfigMaps that the generator's own requests put in place.
    ghost var written: seq<ConfigMap>
    // How many of its requests failed or got no answer.
    ghost var failures: nat

    // Whether a request fails.
    method Fails() returns (fails: bool)
      modifies `failures
      ensures failures == old(failures) + if fails then 1 else 0
    {
      fails := *;
      failures := failures + if fails then 1 else 0;
    }

    // Every Secret there is or was, and no version used twice.
    ghost predicate Valid()
      reads `secrets, `stored, `config, `version
    {
      (forall name :: name in secrets ==> (name, secrets[name]) in stored) &&
      (config.Some? ==> config.value.version <= version)
    }

    // Other writers between two calls: they create Secrets, delete them where
    // clusters are decommissioned, and rewrite or delete the ConfigMap.
    method Elsewhere()
      requires Valid()
      modifies `secrets, `stored, `config, `version
      ensures Valid() && old(stored) <= stored && old(version) <= version
      ensures !decommissions ==> forall name :: name in old(secrets) ==> name in secrets && secrets[name] == old(secrets[name])
      ensures config == old(config) || config.None? || config.value.version > old(version)
    {
      var name: string, secret: Secret := *, *;
      if name !in secrets {
        secrets := secrets[name := secret];
        stored := stored + {(name, secret)};
      } else if decommissions {
        secrets := secrets - {name};
      }
      var choice: int := *;
      if choice == 0 {
        var users: Option<seq<User>> := *;
        version := version + 1;
        config := Some(ConfigMap(users, version));
      } else if choice == 1 {
        config := None;
      }
    }

    // Create, which never replaces.
    method CreateSecret(name: string, secret: Secret) returns (created: bool)
      requires Valid()
      modifies `secrets, `stored
      ensures Valid() && created == (name !in old(secrets))
      ensures secrets == if created then old(secrets)[name := secret] else old(secrets)
      ensures old(stored) <= stored
    {
      created := name !in secrets;
      if created {
        secrets := secrets[name := secret];
        stored := stored + {(name, secret)};
      }
    }
  }

  // The Secret's public key, under either of its two names.
  predicate HoldsKey(s: Secret, key: string) {
    key != "" && (s.public == key || (s.public == "" && s.nkey == key))
  }

  // The key was stored in this Secret.
  ghost predicate KeyStored(stored: set<(string, Secret)>, name: string, key: string) {
    exists s :: (name, s) in stored && HoldsKey(s, key)
  }

  // A Secret of this name held no key.
  ghost predicate Keyless(stored: set<(string, Secret)>, name: string) {
    exists s :: (name, s) in stored && s.public == "" && s.nkey == ""
  }

  ghost predicate KeyCurrent(secrets: map<string, Secret>, name: string, key: string) {
    name in secrets && HoldsKey(secrets[name], key)
  }

  class Generator {
    const cfg: Config
    const kube: Kube

    constructor (cfg: Config, kube: Kube)
      ensures this.cfg == cfg && this.kube == kube
    {
      this.cfg, this.kube := cfg, kube;
    }

    // The key that the cluster's Secret holds, generated first when there is
    // none. A stored key is never replaced: a lost race is read back.
    method EnsureKey(cluster: string, generated: string) returns (r: Result<string, Error>)
      requires kube.Valid() && generated != ""
      modifies kube
      ensures kube.Valid() && old(kube.stored) <= kube.stored && old(kube.version) <= kube.version
      ensures kube.written == old(kube.written)
      ensures !kube.decommissions ==>
                forall name :: name in old(kube.secrets) ==> name in kube.secrets && kube.secrets[name] == old(kube.secrets[name])
      ensures r.Ok? ==> KeyStored(kube.stored, SecretName(cfg, cluster), r.value)
      // A Secret without a key is an error of its own, and there was one then.
      ensures r == Err(NoPublicKey) ==> Keyless(kube.stored, SecretName(cfg, cluster))
      ensures r.Err? ==> r.error == ApiFailure || r.error == NoPublicKey
      ensures kube.failures >= old(kube.failures) && (r == Err(ApiFailure) ==> kube.failures > old(kube.failures))
      ensures r.Ok? && !kube.decommissions ==> KeyCurrent(kube.secrets, SecretName(cfg, cluster), r.value)
    {
      var name := SecretName(cfg, cluster);
      kube.Elsewhere();
      var fails := kube.Fails();
      if fails {
        return Err(ApiFailure);
      }
      if name in kube.secrets {
        r := ReadKey(name);
      } else {
        r := CreateKey(name, generated);
      }
      if r.Ok? {
        kube.Elsewhere();
        var pushFails := kube.Fails();
        if pushFails {
          r := Err(ApiFailure);
        }
      }
    }

    // The key of the Secret as it is now.
    method ReadKey(name: string) returns (r: Result<string, Error>)
      requires kube.Valid() && name in kube.secrets
      ensures r.Ok? ==> KeyStored(kube.stored, name, r.value) && KeyCurrent(kube.secrets, name, r.value)
      ensures r.Err? ==> r == Err(NoPublicKey) && Keyless(kube.stored, name)
    {
      var key := PublicKey(kube.secrets[name]);
      assert (name, kube.secrets[name]) in kube.stored;
      r := if key.Some? then Ok(key.value) else Err(NoPublicKey);
    }

    // Create the Secret, or read the one that somebody else created first.
    method CreateKey(name: string, generated: string) returns (r: Result<string, Error>)
      requires kube.Valid() && generated != ""
      modifies kube
      ensures kube.Valid() && old(kube.stored) <= kube.stored && old(kube.version) <= kube.version
      ensures kube.written == old(kube.written)
      ensures !kube.decommissions ==>
                forall other :: other in old(kube.secrets) ==> other in kube.secrets && kube.secrets[other] == old(kube.secrets[other])
      ensures r.Ok? ==> KeyStored(kube.stored, name, r.value) && KeyCurrent(kube.secrets, name, r.value)
      ensures r == Err(NoPublicKey) ==> Keyless(kube.stored, name)
      ensures r.Err? ==> r.error == ApiFailure || r.error == NoPublicKey
      ensures kube.failures >= old(kube.failures) && (r == Err(ApiFailure) ==> kube.failures > old(kube.failures))
    {
      kube.Elsewhere();
      var requestLost := kube.Fails();
      if requestLost {
        return Err(ApiFailure);
      }
      var created := kube.CreateSecret(name, Secret(generated, generated));
      var answerLost := kube.Fails();
      if answerLost {
        return Err(ApiFailure);
      }
      if created {
        assert (name, kube.secrets[name]) in kube.stored;
        return Ok(generated);
      }
      kube.Elsewhere();
      if name !in kube.secrets {
        kube.failures := kube.failures + 1;  // not found
        return Err(ApiFailure);
      }
      r := ReadKey(name);
    }

    // Clusters previously authorised, absent from the new list, whose Secret
    // is still there.
    method FindDropped(prev: seq<User>, next: seq<User>) returns (dropped: Result<seq<string>, Error>, absent: set<string>)
      requires kube.Valid()
      modifies kube
      ensures kube.Valid() && old(kube.stored) <= kube.stored && old(kube.version) <= kube.version
      ensures kube.written == old(kube.written)
      ensures !kube.decommissions ==>
                forall name :: name in old(kube.secrets) ==> name in kube.secrets && kube.secrets[name] == old(kube.secrets[name])
      ensures dropped == Ok([]) ==> DroppedNkeys(cfg, prev, next, SeenFrom(absent)) == Ok([])
      ensures dropped.Ok? ==> Reported(cfg, prev, next, dropped.value)
      ensures dropped.Err? ==> dropped.error == ApiFailure
      ensures kube.failures >= old(kube.failures) && (dropped.Err? ==> kube.failures > old(kube.failures))
      ensures !kube.decommissions ==> forall name :: name in absent ==> name !in old(kube.secrets)
    {
      var clusters: seq<string> := [];
      absent := {};
      for i := 0 to |prev|
        invariant kube.Valid() && old(kube.stored) <= kube.stored && old(kube.version) <= kube.version
        invariant kube.written == old(kube.written)
        invariant !kube.decommissions ==>
                    forall name :: name in old(kube.secrets) ==> name in kube.secrets && kube.secrets[name] == old(kube.secrets[name])
        invariant !kube.decommissions ==> forall name :: name in absent ==> name !in old(kube.secrets)
        invariant clusters == [] ==> Kept(cfg, prev[..i], next, SeenFrom(absent))
        invariant Reported(cfg, prev, next, clusters) && kube.failures == old(kube.failures)
      {
        if prev[i].nkey.Some? && prev[i].nkey.value !in Keys(next) {
          kube.Elsewhere();
          var fails := kube.Fails();
          if fails {
            return Err(ApiFailure), absent;
          }
          var name := SecretOf(cfg, prev[i]);
          if name in kube.secrets {
            clusters := clusters + [ClusterFromUser(prev[i], cfg.subjectPrefix, prev[i].nkey.value)];
          } else {
            absent := absent + {name};
          }
        }
      }
      assert prev[..|prev|] == prev;
      GuardPassesIff(cfg, prev, next, SeenFrom(absent));
      dropped := Ok(clusters);
    }

    // Reads, checks, reads again for the version, and writes over it. Whatever
    // it puts in place has passed the guard, also when the answer is lost; a
    // refusal or a conflict puts nothing in place.
    method WriteConfigMap(users: seq<User>) returns (err: Option<Error>, t: Trace)
      requires kube.Valid()
      modifies kube
      ensures kube.Valid() && old(kube.stored) <= kube.stored
      ensures !kube.decommissions ==>
                forall name :: name in old(kube.secrets) ==> name in kube.secrets && kube.secrets[name] == old(kube.secrets[name])
      ensures kube.written == old(kube.written) || PutThrough(kube.written, old(kube.written), users, t)
      ensures err.None? ==> kube.written != old(kube.written) && kube.config == Some(kube.written[|old(kube.written)|])
      ensures err.Some? && err != Some(ApiFailure) ==> kube.written == old(kube.written)
      ensures !kube.decommissions ==> forall name :: name in t.absent ==> name !in old(kube.secrets)
      // It refuses to drop only clusters that were authorised and are not in the
      // list, and reports a conflict only if somebody wrote in between.
      ensures match err
        case Some(WouldDrop(clusters)) => clusters != [] && Reported(cfg, UsersOf(t.first), users, clusters)
        case Some(Conflict) => t.last != t.second
        case Some(e) => e == ApiFailure && kube.failures > old(kube.failures)
        case None => true
      ensures kube.failures >= old(kube.failures)
    {
      kube.Elsewhere();
      var readFails := kube.Fails();
      var first := kube.config;
      t := Trace(first, {}, None, first);
      if readFails {
        return Some(ApiFailure), t;
      }
      var dropped, absent := FindDropped(UsersOf(first), users);
      t := Trace(first, absent, None, kube.config);
      if dropped.Err? {
        return Some(dropped.error), t;
      }
      if |dropped.value| > 0 {
        return Some(WouldDrop(dropped.value)), t;
      }
      kube.Elsewhere();
      var getFails := kube.Fails();
      var second := kube.config;
      t := Trace(first, absent, second, second);
      if getFails {
        return Some(ApiFailure), t;
      }
      kube.Elsewhere();
      t := Trace(first, absent, second, kube.config);
      err := Put(users, second);
    }

    // One more ConfigMap was put in place: the given users, over the version
    // read last, after the guard had passed.
    ghost predicate PutThrough(written: seq<ConfigMap>, before: seq<ConfigMap>, users: seq<User>, t: Trace) {
      && |written| == |before| + 1 && before <= written && t.last == t.second
      && var c := written[|before|];
         c.users == Some(users) && Write(cfg, users, t.first, SeenFrom(t.absent), t.second, t.last, c.version) == Ok(c)
    }

    // Update over the version read, or create when there was none. The request
    // or its answer may be lost.
    method Put(users: seq<User>, second: Option<ConfigMap>) returns (err: Option<Error>)
      requires kube.Valid()
      requires kube.config == second || kube.config.None? || second.None? || kube.config.value.version > second.value.version
      modifies kube
      ensures kube.Valid() && kube.stored == old(kube.stored) && kube.secrets == old(kube.secrets)
      ensures || (kube.written == old(kube.written) && kube.config == old(kube.config) && err.Some?)
              || (&& old(kube.config) == second && kube.config == Some(ConfigMap(Some(users), kube.version))
                  && kube.written == old(kube.written) + [kube.config.value])
      ensures err.Some? && err != Some(ApiFailure) ==> kube.written == old(kube.written)
      ensures err.None? || err == Some(ApiFailure) || (err == Some(Conflict) && old(kube.config) != second)
      ensures kube.failures >= old(kube.failures) && (err == Some(ApiFailure) ==> kube.failures > old(kube.failures))
    {
      var last := kube.config;
      var requestLost := kube.Fails();
      if requestLost {
        return Some(ApiFailure);
      }
      if second.Some? != last.Some? || (second.Some? && second.value.version != last.value.version) {
        return Some(Conflict);
      }
      kube.version := kube.version + 1;
      kube.config := Some(ConfigMap(Some(users), kube.version));
      kube.written := kube.written + [kube.config.value];
      var answerLost := kube.Fails();
      err := if answerLost then Some(ApiFailure) else None;
    }

    // The static users and one user for each valid name, whose key is in its
    // Secret by then.
    method Provision(names: seq<string>, generate: string -> string)
      returns (err: Option<Error>, users: seq<User>, keys: seq<(string, string)>)
      requires kube.Valid() && forall c :: generate(c) != ""
      modifies kube
      ensures kube.Valid() && kube.written == old(kube.written)
      ensures !kube.decommissions ==>
                forall name :: name in old(kube.secrets) ==> name in kube.secrets && kube.secrets[name] == old(kube.secrets[name])
      ensures err.None? ==>
                && users == UsersFor(cfg.subjectPrefix, keys) && Clusters(keys) == ValidOnes(names)
                && AllStored(cfg, kube.stored, keys) && (!kube.decommissions ==> AllCurrent(cfg, kube.secrets, keys))
                && Isolated(users, cfg.subjectPrefix, keys)
      ensures kube.failures >= old(kube.failures) && (err == Some(ApiFailure) ==> kube.failures > old(kube.failures))
      ensures match err
        case Some(NoPublicKey) => exists c :: c in names && Keyless(kube.stored, cfg.secretPrefix + "-" + c)
        case Some(e) => e == ApiFailure
        case None => true
    {
      keys, users := [], StaticUsers();
      for i := 0 to |names|
        invariant kube.written == old(kube.written) && kube.failures >= old(kube.failures)
        invariant kube.Valid() && users == UsersFor(cfg.subjectPrefix, keys) && Clusters(keys) == ValidOnes(names[..i])
        invariant AllStored(cfg, kube.stored, keys) && (!kube.decommissions ==> AllCurrent(cfg, kube.secrets, keys))
        invariant !kube.decommissions ==>
                    forall name :: name in old(kube.secrets) ==> name in kube.secrets && kube.secrets[name] == old(kube.secrets[name])
      {
        assert names[..i + 1][..i] == names[..i];
        if ValidClusterName(names[i]) {
          var key := EnsureKey(names[i], generate(names[i]));
          if key.Err? {
            return Some(key.error), users, keys;
          }
          users := users + [NkeyUser(cfg.subjectPrefix, names[i], key.value)];
          UsersForMore(cfg.subjectPrefix, keys, names[i], key.value);
          keys := keys + [(names[i], key.value)];
        }
      }
      assert names[..|names|] == names;
      err := None;
      ValidOnesValid(names);
      assert forall i :: 0 <= i < |keys| ==> Clusters(keys)[i] == keys[i].0;
      UsersIsolated(cfg.subjectPrefix, keys);
    }

    // One provisioning run over the clusters Karmada lists.
    method Sync(listed: Option<seq<string>>, generate: string -> string)
      returns (err: Option<Error>, t: Trace, keys: seq<(string, string)>)
      requires kube.Valid() && forall c :: generate(c) != ""
      modifies kube
      ensures kube.Valid()
      ensures !kube.decommissions ==>
                forall name :: name in old(kube.secrets) ==> name in kube.secrets && kube.secrets[name] == old(kube.secrets[name])
      // Whatever the run puts in place, also when it does not learn of it: one
      // user per valid listed cluster, with a key stored in its Secret, isolated
      // from the others, and everyone authorised before who still has a Secret.
      ensures kube.written == old(kube.written) ||
              (&& listed.Some? && Clusters(keys) == ValidOnes(listed.value)
               && PutThrough(kube.written, old(kube.written), UsersFor(cfg.subjectPrefix, keys), t)
               && Isolated(UsersOf(Some(kube.written[|old(kube.written)|])), cfg.subjectPrefix, keys)
               && AllStored(cfg, kube.stored, keys) && (!kube.decommissions ==> AllCurrent(cfg, kube.secrets, keys))
               && Kept(cfg, UsersOf(t.first), UsersFor(cfg.subjectPrefix, keys), SeenFrom(t.absent))
               && (t.first == t.second ==> Kept(cfg, UsersOf(t.last), UsersFor(cfg.subjectPrefix, keys), SeenFrom(t.absent))))
      ensures err.None? ==> kube.written != old(kube.written) && kube.config == Some(kube.written[|old(kube.written)|])
      ensures !kube.decommissions && kube.written != old(kube.written) ==> forall name :: name in t.absent ==> name !in old(kube.secrets)
      // It stops only for a failed request, a Secret without a key, clusters that
      // would lose theirs, or a conflict.
      ensures listed.None? ==> err == Some(ApiFailure)
      ensures listed.Some? ==> match err
        case Some(ApiFailure) => kube.failures > old(kube.failures)
        case Some(NoPublicKey) => exists c :: c in listed.value && Keyless(kube.stored, cfg.secretPrefix + "-" + c)
        case Some(WouldDrop(clusters)) => clusters != [] && Reported(cfg, UsersOf(t.first), UsersFor(cfg.subjectPrefix, keys), clusters)
        case Some(Conflict) => t.last != t.second
        case None => true
    {
      keys, t := [], Trace(None, {}, None, None);
      if listed.None? {
        return Some(ApiFailure), t, keys;
      }
      var users;
      err, users, keys := Provision(listed.value, generate);
      if err.Some? {
        return;
      }
      err, t := WriteConfigMap(users);
      GuardPassesIff(cfg, UsersOf(t.first), users, SeenFrom(t.absent));
    }
  }

  function ValidOnes(names: seq<string>): seq<string> {
    if names == [] then []
    else
      var n := |names| - 1;
      ValidOnes(names[..n]) + (if ValidClusterName(names[n]) then [names[n]] else [])
  }

  lemma {:induction false} ValidOnesValid(names: seq<string>)
    ensures forall i :: 0 <= i < |ValidOnes(names)| ==> ValidClusterName(ValidOnes(names)[i])
  {
    if names != [] {
      ValidOnesValid(names[..|names| - 1]);
    }
  }

  // Every cluster's key was stored in its own Secret.
  ghost predicate AllStored(cfg: Config, stored: set<(string, Secret)>, keys: seq<(string, string)>) {
    forall i :: 0 <= i < |keys| ==> KeyStored(stored, cfg.secretPrefix + "-" + keys[i].0, keys[i].1)
  }

  ghost predicate AllCurrent(cfg: Config, secrets: map<string, Secret>, keys: seq<(string, string)>) {
    forall i :: 0 <= i < |keys| ==> KeyCurrent(secrets, cfg.secretPrefix + "-" + keys[i].0, keys[i].1)
  }

}
