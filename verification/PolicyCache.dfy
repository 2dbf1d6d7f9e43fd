/**
 The cache of compiled policies: two indexes of buckets, appended to and
 swap-removed from, kept in step with the informer's view of the policies.
 */
module PolicyCache {
  import opened Prelude

  datatype Name = Name(text: string)

  datatype Key = Key(text: string)

  datatype Rule = Rule(matchExpr: string, summary: string)

  datatype Policy = Policy(name: Name, apiGroup: string, kind: string, ready: bool, generation: int,
                           auditRules: seq<Rule>, eventRules: seq<Rule>)

  // A rule that does not compile stays in its place and is never evaluated.
  datatype CompiledRule = CompiledRule(matchExpr: string, summary: string, valid: bool)

  datatype CompiledPolicy = CompiledPolicy(name: Name, apiGroup: string, kind: string, resource: string,
                                           auditRules: seq<CompiledRule>, eventRules: seq<CompiledRule>, original: Policy)

  type Index = map<Key, seq<CompiledPolicy>>

  // What an index is keyed by.
  type KeyOf = CompiledPolicy -> Key

  // Kind to plural resource name, by API discovery.
  type Resolver = (string, string) -> Option<string>

  // API discovery, and which rules the two CEL environments compile.
  datatype Setting = Setting(resolve: Resolver, auditCompiles: Rule -> bool, eventCompiles: Rule -> bool)

  function PolicyKey(apiGroup: string, kindOrResource: string): Key {
    Key(apiGroup + "/" + kindOrResource)
  }

  function ByResource(): KeyOf {
    (c: CompiledPolicy) => PolicyKey(c.apiGroup, c.resource)
  }

  function ByKind(): KeyOf {
    (c: CompiledPolicy) => PolicyKey(c.apiGroup, c.kind)
  }

  function ResourceOf(env: Setting, p: Policy): Option<string> {
    env.resolve(p.apiGroup, p.kind)
  }

  // ---------------------------------------------------------------------
  // Buckets
  // ---------------------------------------------------------------------

  function Bucket(ix: Index, key: Key): seq<CompiledPolicy> {
    if key in ix then ix[key] else []
  }

  function Appended(ix: Index, key: Key, c: CompiledPolicy): Index {
    ix[key := Bucket(ix, key) + [c]]
  }

  function FirstNamed(ps: seq<CompiledPolicy>, name: Name): (i: nat)
    ensures i <= |ps|
    ensures i < |ps| ==> ps[i].name == name
    ensures forall j :: 0 <= j < i ==> ps[j].name != name
  {
    if ps == [] || ps[0].name == name then 0
    else
      assert forall j :: 1 <= j < |ps| ==> ps[1..][j - 1] == ps[j];
      1 + FirstNamed(ps[1..], name)
  }

  // The last element takes the place of the removed one.
  function SwapRemoved(ps: seq<CompiledPolicy>, name: Name): seq<CompiledPolicy> {
    var i := FirstNamed(ps, name);
    if i == |ps| then ps else ps[i := ps[|ps| - 1]][..|ps| - 1]
  }

  function Removed(ix: Index, key: Key, name: Name): Index {
    var left := SwapRemoved(Bucket(ix, key), name);
    if left == [] then ix - {key} else ix[key := left]
  }

  // ---------------------------------------------------------------------
  // Exactness
  // ---------------------------------------------------------------------

  ghost predicate DistinctNames(ps: seq<CompiledPolicy>) {
    forall i, j :: 0 <= i < j < |ps| ==> ps[i].name != ps[j].name
  }

  // A bucket holds cached policies with its key, each once, and is not empty.
  ghost predicate BucketExact(keyOf: KeyOf, ps: seq<CompiledPolicy>, key: Key, cached: map<Name, CompiledPolicy>) {
    ps != [] && DistinctNames(ps) &&
    forall i :: 0 <= i < |ps| ==> ps[i].name in cached && cached[ps[i].name] == ps[i] && keyOf(ps[i]) == key
  }

  ghost predicate Listed(keyOf: KeyOf, ix: Index, c: CompiledPolicy) {
    c in Bucket(ix, keyOf(c))
  }

  // The index is the cached policies, arranged by key.
  ghost predicate Exact(keyOf: KeyOf, ix: Index, cached: map<Name, CompiledPolicy>) {
    (forall key {:trigger BucketExact(keyOf, ix[key], key, cached)} ::
       key in ix ==> BucketExact(keyOf, ix[key], key, cached)) &&
    (forall name {:trigger Listed(keyOf, ix, cached[name])} ::
       name in cached ==> cached[name].name == name && Listed(keyOf, ix, cached[name]))
  }

  lemma SwapRemovedKeeps(ps: seq<CompiledPolicy>, name: Name, i: nat)
    requires DistinctNames(ps) && i < |ps| && ps[i].name != name
    ensures ps[i] in SwapRemoved(ps, name)
  {
    var k := FirstNamed(ps, name);
    if k < |ps| {
      var left := SwapRemoved(ps, name);
      if i == |ps| - 1 {
        assert left[k] == ps[i];
      } else {
        assert left[i] == ps[i];
      }
    }
  }

  // Removing by swap removes one occurrence and nothing else.
  lemma SwapRemovedMultiset(ps: seq<CompiledPolicy>, name: Name)
    ensures var i := FirstNamed(ps, name);
            multiset(SwapRemoved(ps, name)) == if i == |ps| then multiset(ps) else multiset(ps) - multiset{ps[i]}
  {
    var i := FirstNamed(ps, name);
    if i < |ps| {
      DropLast(ps[i := ps[|ps| - 1]]);
      Cancel(multiset(SwapRemoved(ps, name)), multiset(ps) - multiset{ps[i]}, ps[|ps| - 1]);
    }
  }

  lemma DropLast(ps: seq<CompiledPolicy>)
    requires ps != []
    ensures multiset(ps) == multiset(ps[..|ps| - 1]) + multiset{ps[|ps| - 1]}
  {
    assert ps == ps[..|ps| - 1] + [ps[|ps| - 1]];
  }

  lemma Cancel(a: multiset<CompiledPolicy>, b: multiset<CompiledPolicy>, c: CompiledPolicy)
    requires a + multiset{c} == b + multiset{c}
    ensures a == b
  {
    assert a == a + multiset{c} - multiset{c};
    assert b == b + multiset{c} - multiset{c};
  }

  lemma ExactAdd(keyOf: KeyOf, ix: Index, cached: map<Name, CompiledPolicy>, c: CompiledPolicy)
    requires Exact(keyOf, ix, cached) && c.name !in cached
    ensures Exact(keyOf, Appended(ix, keyOf(c), c), cached[c.name := c])
  {
    var ix', cached' := Appended(ix, keyOf(c), c), cached[c.name := c];
    forall k | k in ix' ensures BucketExact(keyOf, ix'[k], k, cached') {
      if k in ix {
        assert BucketExact(keyOf, ix[k], k, cached);
      }
    }
    forall name | name in cached' ensures cached'[name].name == name && Listed(keyOf, ix', cached'[name]) {
      if name != c.name {
        assert Listed(keyOf, ix, cached[name]);
      }
    }
  }

  lemma ExactRemove(keyOf: KeyOf, ix: Index, cached: map<Name, CompiledPolicy>, key: Key, name: Name)
    requires Exact(keyOf, ix, cached) && (name in cached ==> keyOf(cached[name]) == key)
    ensures Exact(keyOf, Removed(ix, key, name), cached - {name})
  {
    var ix', cached' := Removed(ix, key, name), cached - {name};
    var before := Bucket(ix, key);
    if key in ix {
      assert BucketExact(keyOf, before, key, cached);
    }
    forall k | k in ix' ensures BucketExact(keyOf, ix'[k], k, cached') {
      if k != key {
        assert BucketExact(keyOf, ix[k], k, cached);
        OtherBucketLacks(keyOf, ix, cached, k, key, name);
      } else {
        forall i | 0 <= i < |ix'[key]|
          ensures ix'[key][i].name in cached' && cached'[ix'[key][i].name] == ix'[key][i] && keyOf(ix'[key][i]) == key
        {
          assert ix'[key][i] in before;
        }
      }
    }
    forall n | n in cached' ensures Listed(keyOf, ix', cached'[n]) {
      StillListed(keyOf, ix, cached, key, name, n);
    }
  }

  lemma OtherBucketLacks(keyOf: KeyOf, ix: Index, cached: map<Name, CompiledPolicy>, k: Key, key: Key, name: Name)
    requires Exact(keyOf, ix, cached) && (name in cached ==> keyOf(cached[name]) == key) && k in ix && k != key
    ensures forall i :: 0 <= i < |ix[k]| ==> ix[k][i].name != name
  {
    assert BucketExact(keyOf, ix[k], k, cached);
  }

  lemma StillListed(keyOf: KeyOf, ix: Index, cached: map<Name, CompiledPolicy>, key: Key, name: Name, n: Name)
    requires Exact(keyOf, ix, cached) && n in cached && n != name
    ensures Listed(keyOf, Removed(ix, key, name), cached[n])
  {
    var c := cached[n];
    assert Listed(keyOf, ix, c);
    var k := keyOf(c);
    if k == key {
      assert BucketExact(keyOf, ix[k], k, cached);
      var i :| 0 <= i < |ix[k]| && ix[k][i] == c;
      SwapRemovedKeeps(ix[k], name, i);
    }
  }

  // An exact index determines the cached policies.
  lemma ExactUnique(keyOf: KeyOf, ix: Index, a: map<Name, CompiledPolicy>, b: map<Name, CompiledPolicy>)
    requires Exact(keyOf, ix, a) && Exact(keyOf, ix, b)
    ensures a == b
  {
    forall n | n in a ensures n in b && b[n] == a[n] {
      ListedIsCached(keyOf, ix, a, b, n);
    }
    forall n | n in b ensures n in a {
      ListedIsCached(keyOf, ix, b, a, n);
    }
  }

  lemma ListedIsCached(keyOf: KeyOf, ix: Index, a: map<Name, CompiledPolicy>, b: map<Name, CompiledPolicy>, n: Name)
    requires Exact(keyOf, ix, a) && Exact(keyOf, ix, b) && n in a
    ensures n in b && b[n] == a[n]
  {
    assert Listed(keyOf, ix, a[n]);
    var k := keyOf(a[n]);
    assert BucketExact(keyOf, ix[k], k, b);
  }

  // ---------------------------------------------------------------------
  // The ready policies, and how handlers change the indexes
  // ---------------------------------------------------------------------

  predicate IsCached(env: Setting, p: Policy) {
    p.ready && ResourceOf(env, p).Some?
  }

  function CompiledRules(rules: seq<Rule>, compiles: Rule -> bool): seq<CompiledRule> {
    seq(|rules|, i requires 0 <= i < |rules| => CompiledRule(rules[i].matchExpr, rules[i].summary, compiles(rules[i])))
  }

  function Compile(env: Setting, p: Policy, resource: string): CompiledPolicy {
    CompiledPolicy(p.name, p.apiGroup, p.kind, resource,
                   CompiledRules(p.auditRules, env.auditCompiles), CompiledRules(p.eventRules, env.eventCompiles), p)
  }

  // What the cache should hold for the informer's current policies.
  function Cached(env: Setting, live: map<Name, Policy>): map<Name, CompiledPolicy> {
    map name | name in live && IsCached(env, live[name]) :: Compile(env, live[name], ResourceOf(env, live[name]).value)
  }

  function AfterAdd(keyOf: KeyOf, ix: Index, env: Setting, p: Policy): Index {
    if !IsCached(env, p) then ix
    else
      var c := Compile(env, p, ResourceOf(env, p).value);
      Appended(ix, keyOf(c), c)
  }

  // Nothing is removed when the new policy is ready but its kind is unknown.
  function AfterUpdate(keyOf: KeyOf, ix: Index, env: Setting, old_: Policy, new_: Policy): Index {
    if new_.ready && ResourceOf(env, new_).None? then ix
    else
      var left := if IsCached(env, old_) then Removed(ix, keyOf(Compile(env, old_, ResourceOf(env, old_).value)), old_.name) else ix;
      AfterAdd(keyOf, left, env, new_)
  }

  function AfterDelete(keyOf: KeyOf, ix: Index, env: Setting, p: Policy): Index {
    match ResourceOf(env, p)
    case None => ix
    case Some(resource) => Removed(ix, keyOf(Compile(env, p, resource)), p.name)
  }

  lemma CachedWith(env: Setting, live: map<Name, Policy>, p: Policy)
    requires p.name !in live
    ensures Cached(env, live[p.name := p]) ==
            if IsCached(env, p) then Cached(env, live)[p.name := Compile(env, p, ResourceOf(env, p).value)]
            else Cached(env, live)
  {
  }

  lemma CachedWithout(env: Setting, live: map<Name, Policy>, name: Name)
    ensures Cached(env, live - {name}) == Cached(env, live) - {name}
  {
  }

  lemma AddIsExact(keyOf: KeyOf, ix: Index, env: Setting, live: map<Name, Policy>, p: Policy)
    requires Exact(keyOf, ix, Cached(env, live)) && p.name !in live
    ensures Exact(keyOf, AfterAdd(keyOf, ix, env, p), Cached(env, live[p.name := p]))
  {
    CachedWith(env, live, p);
    if IsCached(env, p) {
      ExactAdd(keyOf, ix, Cached(env, live), Compile(env, p, ResourceOf(env, p).value));
    }
  }

  lemma DeleteIsExact(keyOf: KeyOf, ix: Index, env: Setting, live: map<Name, Policy>, p: Policy)
    requires Exact(keyOf, ix, Cached(env, live)) && p.name in live && live[p.name] == p
    ensures Exact(keyOf, AfterDelete(keyOf, ix, env, p), Cached(env, live - {p.name}))
  {
    var cached := Cached(env, live);
    CachedWithout(env, live, p.name);
    if ResourceOf(env, p).Some? {
      ExactRemove(keyOf, ix, cached, keyOf(Compile(env, p, ResourceOf(env, p).value)), p.name);
    } else {
      assert cached - {p.name} == cached;
    }
  }

  // An update leaves the index exact unless a cached policy becomes a ready
  // one whose kind cannot be resolved: the old version then stays.
  lemma UpdateIsExact(keyOf: KeyOf, ix: Index, env: Setting, live: map<Name, Policy>, old_: Policy, new_: Policy)
    requires Exact(keyOf, ix, Cached(env, live))
    requires old_.name in live && live[old_.name] == old_ && new_.name == old_.name
    ensures Exact(keyOf, AfterUpdate(keyOf, ix, env, old_, new_), Cached(env, live[new_.name := new_])) <==>
            !(IsCached(env, old_) && new_.ready && ResourceOf(env, new_).None?)
  {
    if new_.ready && ResourceOf(env, new_).None? {
      StaleUpdate(keyOf, ix, env, live, old_, new_);
    } else {
      CleanUpdate(keyOf, ix, env, live, old_, new_);
    }
  }

  lemma StaleUpdate(keyOf: KeyOf, ix: Index, env: Setting, live: map<Name, Policy>, old_: Policy, new_: Policy)
    requires Exact(keyOf, ix, Cached(env, live))
    requires old_.name in live && live[old_.name] == old_ && new_.name == old_.name
    requires new_.ready && ResourceOf(env, new_).None?
    ensures Exact(keyOf, ix, Cached(env, live[new_.name := new_])) <==> !IsCached(env, old_)
  {
    var cached, name := Cached(env, live), old_.name;
    CachedWithout(env, live, name);
    CachedWith(env, live - {name}, new_);
    assert (live - {name})[name := new_] == live[name := new_];
    StaleIsInexact(keyOf, ix, cached, name);
  }

  lemma StaleIsInexact(keyOf: KeyOf, ix: Index, cached: map<Name, CompiledPolicy>, name: Name)
    requires Exact(keyOf, ix, cached)
    ensures Exact(keyOf, ix, cached - {name}) <==> name !in cached
  {
    if name in cached {
      assert name !in cached - {name};
      if Exact(keyOf, ix, cached - {name}) {
        ExactUnique(keyOf, ix, cached, cached - {name});
      }
    } else {
      assert cached - {name} == cached;
    }
  }

  lemma CleanUpdate(keyOf: KeyOf, ix: Index, env: Setting, live: map<Name, Policy>, old_: Policy, new_: Policy)
    requires Exact(keyOf, ix, Cached(env, live))
    requires old_.name in live && live[old_.name] == old_ && new_.name == old_.name
    requires !(new_.ready && ResourceOf(env, new_).None?)
    ensures Exact(keyOf, AfterUpdate(keyOf, ix, env, old_, new_), Cached(env, live[new_.name := new_]))
  {
    var name := old_.name;
    var rest := live - {name};
    var left := if IsCached(env, old_) then Removed(ix, keyOf(Compile(env, old_, ResourceOf(env, old_).value)), name) else ix;
    CachedWithout(env, live, name);
    if IsCached(env, old_) {
      ExactRemove(keyOf, ix, Cached(env, live), keyOf(Compile(env, old_, ResourceOf(env, old_).value)), name);
    } else {
      assert Cached(env, live) - {name} == Cached(env, live);
    }
    AddIsExact(keyOf, left, env, rest, new_);
    assert rest[name := new_] == live[name := new_];
  }

  // ---------------------------------------------------------------------
  // Runs of informer events
  // ---------------------------------------------------------------------

  datatype Event = Added(p: Policy) | Updated(before: Policy, after: Policy) | Deleted(p: Policy)

  // Informers report each change against the version they reported last.
  predicate Fits(live: map<Name, Policy>, e: Event) {
    match e
    case Added(p) => p.name !in live
    case Updated(before, after) => before.name in live && live[before.name] == before && after.name == before.name
    case Deleted(p) => p.name in live && live[p.name] == p
  }

  function LiveAfter(live: map<Name, Policy>, e: Event): map<Name, Policy> {
    match e
    case Added(p) => live[p.name := p]
    case Updated(_, after) => live[after.name := after]
    case Deleted(p) => live - {p.name}
  }

  function IndexAfter(keyOf: KeyOf, ix: Index, env: Setting, e: Event): Index {
    match e
    case Added(p) => AfterAdd(keyOf, ix, env, p)
    case Updated(before, after) => AfterUpdate(keyOf, ix, env, before, after)
    case Deleted(p) => AfterDelete(keyOf, ix, env, p)
  }

  predicate FitsRun(live: map<Name, Policy>, es: seq<Event>)
    decreases es
  {
    es == [] || (Fits(live, es[0]) && FitsRun(LiveAfter(live, es[0]), es[1..]))
  }

  function LiveAfterRun(live: map<Name, Policy>, es: seq<Event>): map<Name, Policy>
    decreases es
  {
    if es == [] then live else LiveAfterRun(LiveAfter(live, es[0]), es[1..])
  }

  function IndexAfterRun(keyOf: KeyOf, ix: Index, env: Setting, es: seq<Event>): Index
    decreases es
  {
    if es == [] then ix else IndexAfterRun(keyOf, IndexAfter(keyOf, ix, env, es[0]), env, es[1..])
  }

  // No event leaves a stale version behind.
  predicate NoneStale(env: Setting, es: seq<Event>) {
    forall i :: 0 <= i < |es| && es[i].Updated? && IsCached(env, es[i].before) && es[i].after.ready ==>
      ResourceOf(env, es[i].after).Some?
  }

  lemma EventIsExact(keyOf: KeyOf, ix: Index, env: Setting, live: map<Name, Policy>, e: Event)
    requires Exact(keyOf, ix, Cached(env, live)) && Fits(live, e) && NoneStale(env, [e])
    ensures Exact(keyOf, IndexAfter(keyOf, ix, env, e), Cached(env, LiveAfter(live, e)))
  {
    assert [e][0] == e;
    match e
    case Added(p) => AddIsExact(keyOf, ix, env, live, p);
    case Updated(before, after) => UpdateIsExact(keyOf, ix, env, live, before, after);
    case Deleted(p) => DeleteIsExact(keyOf, ix, env, live, p);
  }

  // After any run the index is exactly the ready policies, by key.
  lemma {:induction false} RunIsExact(keyOf: KeyOf, ix: Index, env: Setting, live: map<Name, Policy>, es: seq<Event>)
    requires Exact(keyOf, ix, Cached(env, live)) && FitsRun(live, es) && NoneStale(env, es)
    ensures Exact(keyOf, IndexAfterRun(keyOf, ix, env, es), Cached(env, LiveAfterRun(live, es)))
    decreases es
  {
    if es != [] {
      EventIsExact(keyOf, ix, env, live, es[0]);
      assert NoneStale(env, es[1..]);
      RunIsExact(keyOf, IndexAfter(keyOf, ix, env, es[0]), env, LiveAfter(live, es[0]), es[1..]);
    }
  }

  // ---------------------------------------------------------------------
  // Counting and looking up
  // ---------------------------------------------------------------------

  ghost function Names(ps: seq<CompiledPolicy>): set<Name> {
    set i | 0 <= i < |ps| :: ps[i].name
  }

  lemma {:induction false} NamesCount(ps: seq<CompiledPolicy>)
    requires DistinctNames(ps)
    ensures |Names(ps)| == |ps|
  {
    if ps != [] {
      var n := |ps| - 1;
      NamesCount(ps[..n]);
      assert Names(ps) == Names(ps[..n]) + {ps[n].name};
    }
  }

  // The names found under the given keys.
  ghost function NamesUnder(ix: Index, keys: set<Key>): set<Name> {
    set key, i | key in keys && key in ix && 0 <= i < |ix[key]| :: ix[key][i].name
  }

  ghost function CountUnder(ix: Index, keys: set<Key>): nat {
    |NamesUnder(ix, keys)|
  }

  lemma CountUnderAll(keyOf: KeyOf, ix: Index, cached: map<Name, CompiledPolicy>)
    requires Exact(keyOf, ix, cached)
    ensures CountUnder(ix, {}) == 0 && CountUnder(ix, ix.Keys) == |cached|
  {
    AllNames(keyOf, ix, cached);
    assert NamesUnder(ix, {}) == {};
    assert |cached| == |cached.Keys|;
  }

  ghost predicate Absent(ix: Index, keys: set<Key>, name: Name) {
    forall key :: key in keys && key in ix ==> FirstNamed(ix[key], name) == |ix[key]|
  }

  // A name found in no bucket is not cached.
  lemma AbsentEverywhere(keyOf: KeyOf, ix: Index, cached: map<Name, CompiledPolicy>, name: Name)
    requires Exact(keyOf, ix, cached) && Absent(ix, ix.Keys, name)
    ensures name !in cached
  {
    assert name in cached ==> Listed(keyOf, ix, cached[name]);
  }

  lemma FoundIsCached(keyOf: KeyOf, ix: Index, cached: map<Name, CompiledPolicy>, key: Key, i: nat)
    requires Exact(keyOf, ix, cached) && key in ix && i < |ix[key]|
    ensures ix[key][i].name in cached && cached[ix[key][i].name] == ix[key][i]
  {
    assert BucketExact(keyOf, ix[key], key, cached);
  }

  lemma NamesUnderMore(keyOf: KeyOf, ix: Index, cached: map<Name, CompiledPolicy>, keys: set<Key>, key: Key)
    requires Exact(keyOf, ix, cached) && key in ix && key !in keys && keys <= ix.Keys
    ensures CountUnder(ix, keys + {key}) == CountUnder(ix, keys) + |ix[key]|
  {
    assert BucketExact(keyOf, ix[key], key, cached);
    NamesCount(ix[key]);
    forall name | name in NamesUnder(ix, keys) ensures name !in Names(ix[key]) {
      var k, i :| k in keys && k in ix && 0 <= i < |ix[k]| && ix[k][i].name == name;
      assert BucketExact(keyOf, ix[k], k, cached);
      assert cached[name] == ix[k][i] && keyOf(cached[name]) == k;
    }
    assert NamesUnder(ix, keys + {key}) == NamesUnder(ix, keys) + Names(ix[key]);
  }

  lemma AllNames(keyOf: KeyOf, ix: Index, cached: map<Name, CompiledPolicy>)
    requires Exact(keyOf, ix, cached)
    ensures NamesUnder(ix, ix.Keys) == cached.Keys
  {
    forall name ensures name in NamesUnder(ix, ix.Keys) <==> name in cached {
      if name in NamesUnder(ix, ix.Keys) {
        var k, i :| k in ix && 0 <= i < |ix[k]| && ix[k][i].name == name;
        assert BucketExact(keyOf, ix[k], k, cached);
      }
      if name in cached {
        assert Listed(keyOf, ix, cached[name]);
        var k := keyOf(cached[name]);
        var i :| 0 <= i < |ix[k]| && ix[k][i] == cached[name];
        assert ix[k][i].name == name;
      }
    }
  }

  // The second half of a key: the resource, or the kind.
  type Facet = CompiledPolicy -> string

  function ResourceFacet(): Facet {
    (c: CompiledPolicy) => c.resource
  }

  function KindFacet(): Facet {
    (c: CompiledPolicy) => c.kind
  }

  predicate InCache(cached: map<Name, CompiledPolicy>, c: CompiledPolicy) {
    c.name in cached && cached[c.name] == c
  }

  // Every rule, in its place, and valid if it compiles.
  ghost predicate RulesOf(compiled: seq<CompiledRule>, rules: seq<Rule>, compiles: Rule -> bool) {
    && |compiled| == |rules|
    && forall i :: 0 <= i < |rules| ==>
         && compiled[i].matchExpr == rules[i].matchExpr
         && compiled[i].summary == rules[i].summary
         && compiled[i].valid == compiles(rules[i])
  }

  // A compiled policy is the live, ready policy of its name, with all its
  // rules, under the resource that discovery gives for its kind.
  ghost predicate StandsFor(env: Setting, live: map<Name, Policy>, c: CompiledPolicy) {
    && c.name in live && c.original == live[c.name] && c.original.name == c.name && c.original.ready
    && c.apiGroup == c.original.apiGroup && c.kind == c.original.kind
    && env.resolve(c.original.apiGroup, c.original.kind) == Some(c.resource)
    && RulesOf(c.auditRules, c.original.auditRules, env.auditCompiles)
    && RulesOf(c.eventRules, c.original.eventRules, env.eventCompiles)
  }

  lemma CachedStandsFor(keyOf: KeyOf, ix: Index, env: Setting, live: map<Name, Policy>, c: CompiledPolicy)
    requires Exact(keyOf, ix, Cached(env, live))
    ensures InCache(Cached(env, live), c) <==> StandsFor(env, live, c)
  {
    if c.name in Cached(env, live) {
      assert Listed(keyOf, ix, Cached(env, live)[c.name]);
    }
    if StandsFor(env, live, c) {
      assert c.auditRules == CompiledRules(c.original.auditRules, env.auditCompiles);
      assert c.eventRules == CompiledRules(c.original.eventRules, env.eventCompiles);
    }
  }

  // The policies found are the live ones of this group and resource or kind,
  // each once.
  ghost predicate Answers(found: seq<CompiledPolicy>, env: Setting, live: map<Name, Policy>, facet: Facet, group: string, value: string) {
    && DistinctNames(found)
    && forall c :: c in found <==> StandsFor(env, live, c) && c.apiGroup == group && facet(c) == value
  }

  ghost predicate NoneEmpty(ix: Index) {
    forall key :: key in ix ==> ix[key] != [] && DistinctNames(ix[key])
  }

  // Every bucket holds the live policies of its key, each once, and there is
  // no empty one.
  ghost predicate Arranged(ix: Index, env: Setting, live: map<Name, Policy>, facet: Facet) {
    && NoneEmpty(ix)
    && forall key, c :: c in Bucket(ix, key) <==> StandsFor(env, live, c) && key.text == c.apiGroup + "/" + facet(c)
  }

  // API groups are DNS names, so the slash of a key is its first one.
  ghost predicate PlainGroups(live: map<Name, Policy>, group: string) {
    '/' !in group && forall name :: name in live && live[name].ready ==> '/' !in live[name].apiGroup
  }

  // An exact index is the live policies, arranged by key.
  lemma ExactArranged(keyOf: KeyOf, facet: Facet, ix: Index, env: Setting, live: map<Name, Policy>)
    requires Exact(keyOf, ix, Cached(env, live))
    requires forall c :: keyOf(c) == PolicyKey(c.apiGroup, facet(c))
    ensures Arranged(ix, env, live, facet)
  {
    var cached := Cached(env, live);
    forall key | key in ix ensures ix[key] != [] && DistinctNames(ix[key]) {
      assert BucketExact(keyOf, ix[key], key, cached);
    }
    forall key, c ensures c in Bucket(ix, key) <==> StandsFor(env, live, c) && key.text == c.apiGroup + "/" + facet(c) {
      CachedStandsFor(keyOf, ix, env, live, c);
      assert key in ix ==> BucketExact(keyOf, ix[key], key, cached);
      assert key.text == c.apiGroup + "/" + facet(c) <==> key == keyOf(c);
      if InCache(cached, c) && key == keyOf(c) {
        assert Listed(keyOf, ix, cached[c.name]);
      }
    }
  }

  lemma {:induction false} KeyInjective(a: string, b: string, c: string, d: string)
    requires '/' !in a && '/' !in c && a + "/" + b == c + "/" + d
    ensures a == c && b == d
  {
    if a == [] || c == [] {
      assert (a + "/" + b)[0] == (c + "/" + d)[0];
      assert a == c && "/" + b == a + "/" + b == c + "/" + d == "/" + d;
      assert ("/" + b)[1..] == b && ("/" + d)[1..] == d;
    } else {
      assert (a + "/" + b)[0] == (c + "/" + d)[0];
      assert (a + "/" + b)[1..] == a[1..] + "/" + b && (c + "/" + d)[1..] == c[1..] + "/" + d;
      KeyInjective(a[1..], b, c[1..], d);
      assert a == [a[0]] + a[1..] && c == [c[0]] + c[1..];
    }
  }

  // Looking up a key finds exactly the policies it stands for.
  lemma LookupExact(keyOf: KeyOf, facet: Facet, ix: Index, env: Setting, live: map<Name, Policy>, group: string, value: string)
    requires Exact(keyOf, ix, Cached(env, live)) && PlainGroups(live, group)
    requires forall c :: keyOf(c) == PolicyKey(c.apiGroup, facet(c))
    ensures Answers(Bucket(ix, PolicyKey(group, value)), env, live, facet, group, value)
  {
    var key := PolicyKey(group, value);
    var found := Bucket(ix, key);
    ExactArranged(keyOf, facet, ix, env, live);
    forall c ensures c in found <==> StandsFor(env, live, c) && c.apiGroup == group && facet(c) == value {
      if c in found {
        KeyInjective(c.apiGroup, facet(c), group, value);
      }
    }
  }

  // ---------------------------------------------------------------------
  // The cache and the handlers
  // ---------------------------------------------------------------------

  method RemoveByName(ix: Index, key: Key, name: Name) returns (ix': Index)
    ensures ix' == Removed(ix, key, name)
  {
    ix' := ix;
    var policies := if key in ix then ix[key] else [];
    var i := 0;
    while i < |policies| && policies[i].name != name
      invariant i <= |policies| && forall j :: 0 <= j < i ==> policies[j].name != name
    {
      i := i + 1;
    }
    assert i == FirstNamed(policies, name);
    if i < |policies| {
      var n := |policies| - 1;
      policies := policies[i := policies[n]];
      ix' := ix'[key := policies[..n]];
    }
    if key !in ix' || |ix'[key]| == 0 {
      ix' := ix' - {key};
    }
    assert key in ix ==> ix[key := ix[key]] == ix;
  }

  class Cache {
    const env: Setting
    var policies: Index
    var policiesByKind: Index

    // Both indexes are exactly the ready policies among those the informer
    // last reported.
    ghost predicate Agrees(live: map<Name, Policy>)
      reads this
    {
      Exact(ByResource(), policies, Cached(env, live)) && Exact(ByKind(), policiesByKind, Cached(env, live))
    }

    constructor (env: Setting)
      ensures this.env == env && policies == map[] && policiesByKind == map[]
      ensures Agrees(map[])
    {
      this.env := env;
      policies, policiesByKind := map[], map[];
    }

    method CompileRules(rules: seq<Rule>, compiles: Rule -> bool) returns (compiled: seq<CompiledRule>)
      ensures compiled == CompiledRules(rules, compiles)
    {
      compiled := [];
      for i := 0 to |rules|
        invariant compiled == CompiledRules(rules, compiles)[..i]
      {
        compiled := compiled + [CompiledRule(rules[i].matchExpr, rules[i].summary, compiles(rules[i]))];
      }
    }

    method CompilePolicy(policy: Policy, resource: string) returns (compiled: CompiledPolicy)
      ensures compiled == Compile(env, policy, resource)
    {
      var auditRules := CompileRules(policy.auditRules, env.auditCompiles);
      var eventRules := CompileRules(policy.eventRules, env.eventCompiles);
      compiled := CompiledPolicy(policy.name, policy.apiGroup, policy.kind, resource, auditRules, eventRules, policy);
    }

    method Add(policy: Policy, resource: string)
      modifies this
      ensures var c := Compile(env, policy, resource);
              policies == Appended(old(policies), ByResource()(c), c) &&
              policiesByKind == Appended(old(policiesByKind), ByKind()(c), c)
    {
      var compiled := CompilePolicy(policy, resource);
      var key := PolicyKey(policy.apiGroup, resource);
      policies := policies[key := (if key in policies then policies[key] else []) + [compiled]];
      var kindKey := PolicyKey(policy.apiGroup, policy.kind);
      policiesByKind := policiesByKind[kindKey := (if kindKey in policiesByKind then policiesByKind[kindKey] else []) + [compiled]];
    }

    method Remove(policy: Policy, resource: string)
      modifies this
      ensures var c := Compile(env, policy, resource);
              policies == Removed(old(policies), ByResource()(c), policy.name) &&
              policiesByKind == Removed(old(policiesByKind), ByKind()(c), policy.name)
    {
      policies := RemoveByName(policies, PolicyKey(policy.apiGroup, resource), policy.name);
      policiesByKind := RemoveByName(policiesByKind, PolicyKey(policy.apiGroup, policy.kind), policy.name);
    }

    method Update(oldPolicy: Policy, newPolicy: Policy, oldResource: string, newResource: string)
      modifies this
      ensures var before, after := Compile(env, oldPolicy, oldResource), Compile(env, newPolicy, newResource);
              policies == Appended(Removed(old(policies), ByResource()(before), oldPolicy.name), ByResource()(after), after) &&
              policiesByKind == Appended(Removed(old(policiesByKind), ByKind()(before), oldPolicy.name), ByKind()(after), after)
    {
      Remove(oldPolicy, oldResource);
      Add(newPolicy, newResource);
    }

    method OnPolicyAdd(policy: Policy)
      modifies this
      ensures policies == AfterAdd(ByResource(), old(policies), env, policy)
      ensures policiesByKind == AfterAdd(ByKind(), old(policiesByKind), env, policy)
    {
      if !policy.ready {
        return;
      }
      var resource := env.resolve(policy.apiGroup, policy.kind);
      if resource.None? {
        return;
      }
      Add(policy, resource.value);
    }

    method OnPolicyUpdate(oldPolicy: Policy, newPolicy: Policy)
      modifies this
      ensures policies == AfterUpdate(ByResource(), old(policies), env, oldPolicy, newPolicy)
      ensures policiesByKind == AfterUpdate(ByKind(), old(policiesByKind), env, oldPolicy, newPolicy)
    {
      var oldResource, newResource := env.resolve(oldPolicy.apiGroup, oldPolicy.kind), env.resolve(newPolicy.apiGroup, newPolicy.kind);
      if newResource.None? && newPolicy.ready {
        return;
      }
      if oldPolicy.ready && oldResource.Some? {
        Remove(oldPolicy, oldResource.value);
      }
      if newPolicy.ready {
        Add(newPolicy, newResource.value);
      }
    }

    method OnPolicyDelete(policy: Policy)
      modifies this
      ensures policies == AfterDelete(ByResource(), old(policies), env, policy)
      ensures policiesByKind == AfterDelete(ByKind(), old(policiesByKind), env, policy)
    {
      var resource := env.resolve(policy.apiGroup, policy.kind);
      if resource.None? {
        return;
      }
      Remove(policy, resource.value);
    }

    method Handle(e: Event, ghost live: map<Name, Policy>)
      requires Agrees(live) && Fits(live, e) && NoneStale(env, [e])
      modifies this
      ensures Agrees(LiveAfter(live, e))
    {
      EventIsExact(ByResource(), policies, env, live, e);
      EventIsExact(ByKind(), policiesByKind, env, live, e);
      match e {
        case Added(p) => OnPolicyAdd(p);
        case Updated(before, after) => OnPolicyUpdate(before, after);
        case Deleted(p) => OnPolicyDelete(p);
      }
    }

    // Over a whole run of informer events from an empty cache: both indexes end
    // as the live policies, by group and resource and by group and kind.
    method HandleAll(es: seq<Event>)
      requires policies == map[] && policiesByKind == map[] && FitsRun(map[], es) && NoneStale(env, es)
      modifies this
      ensures Agrees(LiveAfterRun(map[], es))
      ensures NoneEmpty(policies) && NoneEmpty(policiesByKind)
      ensures forall key, c :: c in Bucket(policies, key) <==>
                StandsFor(env, LiveAfterRun(map[], es), c) && key.text == c.apiGroup + "/" + c.resource
      ensures forall key, c :: c in Bucket(policiesByKind, key) <==>
                StandsFor(env, LiveAfterRun(map[], es), c) && key.text == c.apiGroup + "/" + c.kind
    {
      ghost var live: map<Name, Policy> := map[];
      for i := 0 to |es|
        invariant Agrees(live) && FitsRun(live, es[i..]) && LiveAfterRun(live, es[i..]) == LiveAfterRun(map[], es)
      {
        assert es[i..][0] == es[i] && es[i..][1..] == es[i + 1..] && [es[i]][0] == es[i];
        Handle(es[i], live);
        live := LiveAfter(live, es[i]);
      }
      ExactArranged(ByResource(), ResourceFacet(), policies, env, live);
      ExactArranged(ByKind(), KindFacet(), policiesByKind, env, live);
    }

    method Get(apiGroup: string, resource: string, ghost live: map<Name, Policy>) returns (found: seq<CompiledPolicy>)
      requires Agrees(live)
      ensures DistinctNames(found)
      ensures PlainGroups(live, apiGroup) ==>
        forall c :: c in found <==> StandsFor(env, live, c) && c.apiGroup == apiGroup && c.resource == resource
    {
      ExactArranged(ByResource(), ResourceFacet(), policies, env, live);
      if PlainGroups(live, apiGroup) {
        LookupExact(ByResource(), ResourceFacet(), policies, env, live, apiGroup, resource);
      }
      var key := PolicyKey(apiGroup, resource);
      found := if key in policies then policies[key] else [];
    }

    method GetByKind(apiGroup: string, kind: string, ghost live: map<Name, Policy>) returns (found: seq<CompiledPolicy>)
      requires Agrees(live)
      ensures DistinctNames(found)
      ensures PlainGroups(live, apiGroup) ==>
        forall c :: c in found <==> StandsFor(env, live, c) && c.apiGroup == apiGroup && c.kind == kind
    {
      ExactArranged(ByKind(), KindFacet(), policiesByKind, env, live);
      if PlainGroups(live, apiGroup) {
        LookupExact(ByKind(), KindFacet(), policiesByKind, env, live, apiGroup, kind);
      }
      var key := PolicyKey(apiGroup, kind);
      found := if key in policiesByKind then policiesByKind[key] else [];
    }

    method Len(ghost live: map<Name, Policy>) returns (count: nat)
      requires Agrees(live)
      ensures count == |set name | name in live && live[name].ready && env.resolve(live[name].apiGroup, live[name].kind).Some?|
    {
      count := CountPolicies(policies, ByResource(), Cached(env, live));
      assert Cached(env, live).Keys ==
        set name | name in live && live[name].ready && env.resolve(live[name].apiGroup, live[name].kind).Some?;
    }

    method Generation(name: Name, ghost live: map<Name, Policy>) returns (generation: int)
      requires Agrees(live)
      ensures generation ==
        if name in live && live[name].ready && env.resolve(live[name].apiGroup, live[name].kind).Some? then live[name].generation
        else 0
    {
      var found := FindPolicy(policies, name, ByResource(), Cached(env, live));
      generation := if found.Some? then found.value.original.generation else 0;
    }
  }

  method CountPolicies(ix: Index, ghost keyOf: KeyOf, ghost cached: map<Name, CompiledPolicy>) returns (count: nat)
    requires Exact(keyOf, ix, cached)
    ensures count == |cached|
  {
    CountUnderAll(keyOf, ix, cached);
    count := 0;
    var left := ix.Keys;
    ghost var visited: set<Key> := {};
    while left != {}
      invariant visited !! left && visited + left == ix.Keys && count == CountUnder(ix, visited)
      decreases |left|
    {
      var key :| key in left;
      NamesUnderMore(keyOf, ix, cached, visited, key);
      count := count + |ix[key]|;
      left, visited := left - {key}, visited + {key};
    }
    assert visited == ix.Keys;
  }

  method FindPolicy(ix: Index, name: Name, ghost keyOf: KeyOf, ghost cached: map<Name, CompiledPolicy>)
    returns (found: Option<CompiledPolicy>)
    requires Exact(keyOf, ix, cached)
    ensures found == if name in cached then Some(cached[name]) else None
  {
    var left := ix.Keys;
    ghost var visited: set<Key> := {};
    while left != {}
      invariant visited + left == ix.Keys && Absent(ix, visited, name)
      decreases |left|
    {
      var key :| key in left;
      for i := 0 to |ix[key]|
        invariant forall j :: 0 <= j < i ==> ix[key][j].name != name
      {
        if ix[key][i].name == name {
          FoundIsCached(keyOf, ix, cached, key, i);
          return Some(ix[key][i]);
        }
      }
      left, visited := left - {key}, visited + {key};
    }
    assert visited == ix.Keys;
    AbsentEverywhere(keyOf, ix, cached, name);
    return None;
  }
}
