/**
 The requests one replica makes for one fetched message, and what they do to
 the queue: they are a run of the protocol, and a policy-triggered scan made of
 them never meets a message twice and does bounded work.
 */
module RetryPaths {
  import opened Prelude
  import opened Backoff
  import opened DeadLetters
  import opened RetryProtocol

  // A request, how it was answered, and when the broker handled it.
  datatype Exchange = Exchange(pc: Pc, fate: Fate, at: int)

  // The handling of one fetched message.
  datatype Handling = Handling(n: nat, msg: Message, filter: Option<Filter>, obs: Observed, path: seq<Exchange>)

  // The requests follow the protocol from `pc` until nothing is left to do.
  predicate Follows(pc: Pc, path: seq<Exchange>)
    decreases |path|
  {
    if pc == Done then path == []
    else pc != Fetched && path != [] && path[0].pc == pc && Follows(Advance(pc, path[0].fate), path[1..])
  }

  predicate Proper(setup: Setup, h: Handling) {
    Follows(Decide(setup, h.filter, h.msg, h.obs), h.path)
  }

  predicate Timely(from: int, path: seq<Exchange>)
    decreases |path|
  {
    path == [] || (from <= path[0].at && Timely(path[0].at, path[1..]))
  }

  function Effect(hash: Hash, schedule: Schedule, b: Broker, n: nat, x: Exchange): Broker {
    if x.fate == Late then b else Perform(hash, schedule, b, n, x.pc, x.at)
  }

  function Replay(hash: Hash, schedule: Schedule, b: Broker, n: nat, path: seq<Exchange>): Broker
    decreases |path|
  {
    if path == [] then b else Replay(hash, schedule, Effect(hash, schedule, b, n, path[0]), n, path[1..])
  }

  // A metadata update that failed is the one thing answered by a plain NAK.
  predicate NoPlainNak(path: seq<Exchange>) {
    forall x :: x in path ==> x.pc != Naking
  }

  // The filter, or the backoff when there is none, let the message through.
  predicate Attempts(setup: Setup, h: Handling) {
    && h.msg.Parsed?
    && match h.filter
       case Some(f) => Matches(f, h.msg.dl)
       case None => Eligible(setup, h.msg.dl, h.obs)
  }

  datatype Outcome = Succeeded | Failed | Skipped

  // A retry succeeded when the source stream's acceptance came back.
  function OutcomeOf(setup: Setup, h: Handling): Outcome {
    if Decide(setup, h.filter, h.msg, h.obs).Deferring? then Skipped
    else if h.path != [] && h.path[0].pc.Republishing? && h.path[0].fate == Delivered then Succeeded
    else Failed
  }

  // ---------------------------------------------------------------------
  // The controller's requests are runs of the protocol
  // ---------------------------------------------------------------------

  function StepsOf(d: nat, clock: int, path: seq<Exchange>): seq<Step>
    requires Timely(clock, path)
    decreases |path|
  {
    if path == [] then []
    else [Tick(path[0].at - clock), Request(d, path[0].fate)] + StepsOf(d, path[0].at, path[1..])
  }

  lemma {:induction false} PathIsRun(env: Env, s: State, d: nat, path: seq<Exchange>)
    requires d in s.deliveries && Follows(s.deliveries[d].pc, path) && Timely(s.clock, path)
    ensures Possible(env, s, StepsOf(d, s.clock, path))
    ensures var s' := After(env, s, StepsOf(d, s.clock, path));
            && s'.broker == Replay(env.hash, env.setup.schedule, s.broker, s.deliveries[d].n, path)
            && s'.deliveries == s.deliveries[d := Delivery(s.deliveries[d].n, Done)]
            && s'.clock == if path == [] then s.clock else path[|path| - 1].at
    decreases |path|
  {
    if path != [] {
      var run := StepsOf(d, s.clock, path);
      var s1 := Execute(env, s, run[0]);
      var s2 := Execute(env, s1, run[1]);
      assert run[1..][1..] == StepsOf(d, path[0].at, path[1..]);
      assert Enabled(s1, run[1]);
      PathIsRun(env, s2, d, path[1..]);
    } else {
      assert s.deliveries[d].pc == Done;
    }
  }

  // ---------------------------------------------------------------------
  // One replica among others
  // ---------------------------------------------------------------------

  // The deliveries of one replica, which no other advances.
  predicate Undisturbed(own: set<nat>, s: State, t: State) {
    forall d :: d in own && d in s.deliveries ==> d in t.deliveries && t.deliveries[d] == s.deliveries[d]
  }

  // Some run that leaves those deliveries alone.
  ghost predicate Goes(env: Env, own: set<nat>, s: State, t: State) {
    Leads(env, s, t) && Undisturbed(own, s, t) && s.clock <= t.clock && s.broker.log <= t.broker.log
  }

  lemma GoesOn(env: Env, own: set<nat>, s: State, t: State, u: State)
    requires Goes(env, own, s, t) && Goes(env, own, t, u)
    ensures Goes(env, own, s, u)
  {
    LeadsOn(env, s, t, u);
  }

  lemma GoesNowhere(env: Env, own: set<nat>, s: State)
    ensures Goes(env, own, s, s)
  {
    assert Possible(env, s, []) && After(env, s, []) == s;
  }

  lemma {:induction false} RunGrows(env: Env, s: State, run: seq<Step>)
    requires Possible(env, s, run)
    ensures s.clock <= After(env, s, run).clock && s.broker.log <= After(env, s, run).broker.log
    decreases |run|
  {
    if run != [] {
      RunGrows(env, Execute(env, s, run[0]), run[1..]);
    }
  }

  lemma RunGoes(env: Env, own: set<nat>, s: State, run: seq<Step>)
    requires Possible(env, s, run) && Undisturbed(own, s, After(env, s, run))
    ensures Goes(env, own, s, After(env, s, run))
  {
    RunGrows(env, s, run);
    assert Possible(env, s, run) && After(env, s, run) == After(env, s, run);
  }

  lemma StepGoes(env: Env, own: set<nat>, s: State, step: Step)
    requires Enabled(s, step) && Undisturbed(own, s, Execute(env, s, step))
    ensures Goes(env, own, s, Execute(env, s, step))
  {
    StepLeads(env, s, step);
  }

  // Others act first, as far as `met`; then this replica's request for delivery
  // `d` is answered, or not. `alone` if nobody else did anything.
  ghost predicate Asked(env: Env, own: set<nat>, s: State, met: State, t: State, d: nat, fate: Fate, alone: bool) {
    && Goes(env, own, s, met) && (alone ==> met == s.(clock := met.clock))
    && Enabled(met, Request(d, fate)) && t == Execute(env, met, Request(d, fate))
  }

  // A replica's requests for delivery `d` of message `n`, from `pc` to the end,
  // with others acting in between.
  ghost predicate Walked(env: Env, own: set<nat>, s: State, t: State, d: nat, n: nat, pc: Pc, path: seq<Exchange>, alone: bool) {
    && Goes(env, own - {d}, s, t) && d in t.deliveries && t.deliveries[d] == Delivery(n, Done)
    && Follows(pc, path) && Timely(s.clock, path) && (forall x :: x in path ==> x.at <= t.clock)
    && (alone ==> t.broker == Replay(env.hash, env.setup.schedule, s.broker, n, path))
  }

  lemma WalkedDone(env: Env, own: set<nat>, s: State, d: nat, n: nat)
    requires d in s.deliveries && s.deliveries[d] == Delivery(n, Done)
    ensures Walked(env, own, s, s, d, n, Done, [], true)
  {
    GoesNowhere(env, own - {d}, s);
  }

  lemma AskedGoes(env: Env, own: set<nat>, s: State, met: State, t: State, d: nat, fate: Fate, alone: bool)
    requires Asked(env, own, s, met, t, d, fate, alone) && d in own && d in s.deliveries && Asking(s.deliveries[d].pc)
    ensures var Delivery(n, pc) := s.deliveries[d];
      && Goes(env, own - {d}, s, t) && d in t.deliveries && t.deliveries[d] == Delivery(n, Advance(pc, fate)) && t.clock == met.clock
      && (alone ==> t.broker == Effect(env.hash, env.setup.schedule, s.broker, n, Exchange(pc, fate, t.clock)))
  {
    assert met.deliveries[d] == s.deliveries[d];
    StepGoes(env, own - {d}, met, Request(d, fate));
    assert Goes(env, own - {d}, s, met);
    GoesOn(env, own - {d}, s, met, t);
  }

  // One more request in front.
  lemma WalkedOn(env: Env, own: set<nat>, s: State, met: State, s1: State, t: State, d: nat, fate: Fate, path: seq<Exchange>,
                 first: bool, rest: bool) returns (longer: seq<Exchange>)
    requires d in own && d in s.deliveries && Asking(s.deliveries[d].pc)
    requires Asked(env, own, s, met, s1, d, fate, first)
    requires Walked(env, own, s1, t, d, s.deliveries[d].n, Advance(s.deliveries[d].pc, fate), path, rest)
    ensures longer == [Exchange(s.deliveries[d].pc, fate, s1.clock)] + path
    ensures Walked(env, own, s, t, d, s.deliveries[d].n, s.deliveries[d].pc, longer, first && rest)
  {
    var Delivery(n, pc) := s.deliveries[d];
    var x := Exchange(pc, fate, s1.clock);
    longer := [x] + path;
    assert longer[1..] == path;
    AskedGoes(env, own, s, met, s1, d, fate, first);
    GoesOn(env, own - {d}, s, s1, t);
  }

  // The same after steps that left the delivery's message and the queue alone.
  lemma WalkedFrom(env: Env, own: set<nat>, s: State, s1: State, t: State, d: nat, n: nat, pc: Pc, path: seq<Exchange>, alone: bool)
    requires Goes(env, own - {d}, s, s1) && s1.broker == s.broker && s1.clock == s.clock
    requires Walked(env, own, s1, t, d, n, pc, path, alone)
    ensures Walked(env, own, s, t, d, n, pc, path, alone)
  {
    GoesOn(env, own - {d}, s, s1, t);
  }

  // A delivery of the message is in progress and nothing is decided yet.
  predicate Holding(s: State, d: nat, n: nat) {
    d in s.deliveries && s.deliveries[d] == Delivery(n, Fetched)
  }

  // Handling a fetched message, from the decision to the last answer, is a run
  // of the protocol that ends with this delivery done.
  lemma HandlingLeads(env: Env, s: State, d: nat, h: Handling, clock: int) returns (s': State)
    requires Holding(s, d, h.n) && h.n < |s.broker.log| && h.msg == s.broker.log[h.n] && Proper(env.setup, h)
    requires s.clock <= clock && Timely(s.clock, h.path) && forall x :: x in h.path ==> x.at <= clock
    ensures Leads(env, s, s') && s'.clock == clock
    ensures s'.broker == Replay(env.hash, env.setup.schedule, s.broker, h.n, h.path)
    ensures s'.deliveries == s.deliveries[d := Delivery(h.n, Done)]
  {
    var name := if h.msg.Parsed? then h.msg.dl.policyName else "";
    var s1 := Execute(env, s, SetGeneration(name, h.obs.generationAtStamp));
    StepLeads(env, s, SetGeneration(name, h.obs.generationAtStamp));
    var s2 := Execute(env, s1, Judge(d, h.filter, h.obs));
    StepLeads(env, s1, Judge(d, h.filter, h.obs));
    LeadsOn(env, s, s1, s2);
    PathIsRun(env, s2, d, h.path);
    var s3 := After(env, s2, StepsOf(d, s2.clock, h.path));
    LeadsOn(env, s, s2, s3);
    TimelyFrom(s.clock, h.path);
    assert s3.clock <= clock by {
      assert h.path != [] ==> h.path[|h.path| - 1] in h.path;
    }
    s' := Execute(env, s3, Tick(clock - s3.clock));
    StepLeads(env, s3, Tick(clock - s3.clock));
    LeadsOn(env, s, s3, s');
  }

  // Hiding the fetched messages, one after the other.
  function Hide(b: Broker, msgs: seq<nat>, until: int): Broker {
    if msgs == [] then b else Delay(Hide(b, msgs[..|msgs| - 1], until), msgs[|msgs| - 1], until)
  }

  lemma {:induction false} HideOnly(b: Broker, msgs: seq<nat>, until: int)
    ensures var b' := Hide(b, msgs, until);
      && b' == b.(pending := b'.pending) && b'.pending.Keys == b.pending.Keys
      && forall m :: m in b.pending ==> b'.pending[m] == if m in msgs then until else b.pending[m]
  {
    if msgs != [] {
      HideOnly(b, msgs[..|msgs| - 1], until);
      assert msgs == msgs[..|msgs| - 1] + [msgs[|msgs| - 1]];
    }
  }

  // Acks on their way arrive in any order.
  lemma {:induction false} AcksLead(env: Env, s: State, arrived: set<nat>) returns (s': State)
    requires arrived <= s.broker.acks
    ensures Leads(env, s, s') && s' == s.(broker := s.broker.(pending := s.broker.pending - arrived))
    decreases |arrived|
  {
    if arrived == {} {
      s' := s;
      assert Possible(env, s, []) && After(env, s, []) == s;
      assert s.broker.pending - arrived == s.broker.pending;
    } else {
      var n :| n in arrived;
      var s1 := Execute(env, s, AckArrives(n));
      StepLeads(env, s, AckArrives(n));
      s' := AcksLead(env, s1, arrived - {n});
      LeadsOn(env, s, s1, s');
      assert s.broker.pending - {n} - (arrived - {n}) == s.broker.pending - arrived;
    }
  }

  // One delivery for each fetched message, numbered from `d` on.
  ghost predicate HoldingAll(s: State, d: nat, msgs: seq<nat>) {
    forall i {:trigger msgs[i]} :: 0 <= i < |msgs| ==> Holding(s, d + i, msgs[i])
  }

  lemma {:induction false} FetchesLead(env: Env, s: State, d: nat, msgs: seq<nat>) returns (s': State)
    requires Distinct(msgs) && forall x :: x in s.deliveries ==> x < d
    requires forall m :: m in msgs ==> m in s.broker.pending && s.broker.pending[m] <= s.clock
    ensures Leads(env, s, s') && s'.clock == s.clock && s'.broker == Hide(s.broker, msgs, s.clock + ACK_WAIT)
    ensures HoldingAll(s', d, msgs)
    ensures forall x :: x in s'.deliveries ==> x < d + |msgs|
    decreases |msgs|
  {
    if msgs == [] {
      s' := s;
      assert Possible(env, s, []) && After(env, s, []) == s;
    } else {
      var last := |msgs| - 1;
      var s1 := FetchesLead(env, s, d, msgs[..last]);
      HideOnly(s.broker, msgs[..last], s.clock + ACK_WAIT);
      assert msgs[last] !in msgs[..last];
      s' := Execute(env, s1, Fetch(d + last, msgs[last]));
      StepLeads(env, s1, Fetch(d + last, msgs[last]));
      LeadsOn(env, s, s1, s');
      forall i | 0 <= i < |msgs| ensures Holding(s', d + i, msgs[i]) {
        assert i < last ==> Holding(s1, d + i, msgs[..last][i]);
      }
    }
  }

  lemma {:induction false} AboveAll(ids: set<nat>) returns (d: nat)
    ensures forall x :: x in ids ==> x < d
    decreases |ids|
  {
    d := 0;
    if ids != {} {
      var x :| x in ids;
      var e := AboveAll(ids - {x});
      d := if x < e then e else x + 1;
      assert forall y :: y in ids ==> y == x || y in ids - {x};
    }
  }

  // No delivery has this number or a greater one.
  predicate Tops(deliveries: map<nat, Delivery>, d: nat) {
    forall x :: x in deliveries ==> x < d
  }

  // Handing out messages, one delivery after the other, with `msgs` out so far.
  ghost predicate HandedOut(env: Env, own: set<nat>, s0: State, s: State, d: nat, msgs: seq<nat>) {
    && Goes(env, own, s0, s) && s.clock == s0.clock
    && Tops(s0.deliveries, d) && Tops(s.deliveries, d + |msgs|)
    && HoldingAll(s, d, msgs) && s.broker == Hide(s0.broker, msgs, s0.clock + ACK_WAIT)
  }

  lemma HandOutOne(env: Env, own: set<nat>, s0: State, s: State, d: nat, msgs: seq<nat>, m: nat)
    requires HandedOut(env, own, s0, s, d, msgs) && m !in msgs && m in s0.broker.pending && s0.broker.pending[m] <= s0.clock
    ensures Enabled(s, Fetch(d + |msgs|, m))
    ensures HandedOut(env, own, s0, Execute(env, s, Fetch(d + |msgs|, m)), d, msgs + [m])
  {
    HideOnly(s0.broker, msgs, s0.clock + ACK_WAIT);
    var s' := Execute(env, s, Fetch(d + |msgs|, m));
    FetchGoes(env, own, s0, s, d + |msgs|, d, m);
    HideOne(s0.broker, msgs, m, s0.clock + ACK_WAIT);
    HoldOne(s, s', d, msgs, m);
  }

  lemma FetchGoes(env: Env, own: set<nat>, s0: State, s: State, x: nat, d: nat, m: nat)
    requires Goes(env, own, s0, s) && Tops(s0.deliveries, d) && d <= x && Tops(s.deliveries, x) && Enabled(s, Fetch(x, m))
    ensures Goes(env, own, s0, Execute(env, s, Fetch(x, m))) && Tops(Execute(env, s, Fetch(x, m)).deliveries, x + 1)
  {
    var s' := Execute(env, s, Fetch(x, m));
    StepGoes(env, own, s, Fetch(x, m));
    GoesOn(env, own, s0, s, s');
  }

  lemma HideOne(b: Broker, msgs: seq<nat>, m: nat, until: int)
    ensures Hide(b, msgs + [m], until) == Delay(Hide(b, msgs, until), m, until)
  {
    assert (msgs + [m])[..|msgs|] == msgs;
  }

  lemma HoldOne(s: State, s': State, d: nat, msgs: seq<nat>, m: nat)
    requires HoldingAll(s, d, msgs) && s'.deliveries == s.deliveries[d + |msgs| := Delivery(m, Fetched)]
    ensures HoldingAll(s', d, msgs + [m])
  {
    forall i | 0 <= i < |msgs + [m]| ensures Holding(s', d + i, (msgs + [m])[i]) {
      assert i < |msgs| ==> Holding(s, d + i, msgs[i]);
    }
  }

  // What a fetch leaves of the queue it met.
  lemma FetchShows(b0: Broker, b: Broker, arrived: set<nat>, msgs: seq<nat>, at: int)
    requires b == Hide(b0.(pending := b0.pending - arrived), msgs, at + ACK_WAIT)
    requires forall m :: m in msgs ==> m in b0.pending && m !in arrived && b0.pending[m] <= at
    ensures b == b0.(pending := b.pending) && b.pending.Keys <= b0.pending.Keys
    ensures forall m :: m in msgs ==> m in b.pending && b.pending[m] == at + ACK_WAIT
    ensures forall m :: m in b.pending && m !in msgs ==> b.pending[m] == b0.pending[m]
  {
    HideOnly(b0.(pending := b0.pending - arrived), msgs, at + ACK_WAIT);
  }

  // A timed fetch: acks arrive, time passes, messages are handed out.
  lemma FetchLeads(env: Env, s: State, d: nat, arrived: set<nat>, clock: int, msgs: seq<nat>) returns (s': State)
    requires arrived <= s.broker.acks && s.clock <= clock
    requires Distinct(msgs) && forall x :: x in s.deliveries ==> x < d
    requires forall m :: m in msgs ==> m in s.broker.pending && m !in arrived && s.broker.pending[m] <= clock
    ensures Leads(env, s, s') && s'.clock == clock
    ensures s'.broker == Hide(s.broker.(pending := s.broker.pending - arrived), msgs, clock + ACK_WAIT)
    ensures HoldingAll(s', d, msgs)
    ensures forall x :: x in s'.deliveries ==> x < d + |msgs|
  {
    var s1 := AcksLead(env, s, arrived);
    var s2 := Execute(env, s1, Tick(clock - s1.clock));
    StepLeads(env, s1, Tick(clock - s1.clock));
    LeadsOn(env, s, s1, s2);
    s' := FetchesLead(env, s2, d, msgs);
    LeadsOn(env, s, s2, s');
  }

  // ---------------------------------------------------------------------
  // What a policy-triggered scan keeps
  // ---------------------------------------------------------------------

  // Without a plain NAK a path takes one of four shapes.
  lemma PathShape(pc: Pc, path: seq<Exchange>)
    requires Follows(pc, path) && NoPlainNak(path)
    ensures pc == Acking || pc.Deferring? ==> |path| == 1
    ensures pc.Recording? ==> |path| == 2 && path[0].fate == Delivered && path[1].pc == Acking
    ensures pc.Republishing? ==>
              || (|path| == 2 && path[0].fate == Delivered && path[1].pc == Acking)
              || (|path| == 3 && path[1].pc == Recording(pc.dl, pc.now) && path[1].fate == Delivered && path[2].pc == Acking)
    ensures pc != Done ==> |path| > 0 && path[0].pc == pc
  {
    if pc != Done {
      assert path[0] in path;
      var p1, r1 := Advance(pc, path[0].fate), path[1..];
      assert Follows(p1, r1);
      if p1 != Done {
        assert r1[0] == path[1] && path[1] in path;
        var p2, r2 := Advance(p1, r1[0].fate), r1[1..];
        assert Follows(p2, r2);
        if p2 != Done {
          assert r2[0] == path[2] && path[2] in path;
          assert Follows(Advance(p2, r2[0].fate), r2[1..]);
        }
      }
    }
  }

  predicate Settled(b: Broker, m: nat, until: int) {
    m in b.pending ==> b.pending[m] >= until
  }

  predicate Wanted(b: Broker, f: Filter, m: nat) {
    IsEvent(b, m) && Matches(f, b.log[m].dl)
  }

  lemma WantedEarlier(b: Broker, b': Broker, f: Filter)
    requires b.log <= b'.log
    ensures forall m: nat :: m < |b.log| ==> Wanted(b, f, m) == Wanted(b', f, m)
  {
    assert forall m: nat :: m < |b.log| ==> b'.log[..|b.log|][m] == b'.log[m];
  }

  // The queue as a scan found it: the length of its log, and what was in it.
  datatype Found = Found(length: nat, queued: set<nat>)

  function FoundIn(b: Broker): Found {
    Found(|b.log|, b.pending.Keys)
  }

  // Logged since the scan began, or queued when it did.
  predicate Known(found: Found, m: nat) {
    m < found.length ==> m in found.queued
  }

  // The state of a scan that fetches nothing visible from `until` on; `done`
  // were evaluated by it.
  ghost predicate ScanState(b: Broker, found: Found, f: Filter, until: int, done: set<nat>) {
    && found.length <= |b.log|
    && (forall m :: m in b.pending ==> m < |b.log| && Known(found, m))
    && (forall m: nat :: found.length <= m < |b.log| ==> !Wanted(b, f, m))
    && (forall m :: m in done ==> m < found.length && Known(found, m) && Wanted(b, f, m) && Settled(b, m, until))
  }

  // A scan evaluates only what its filter wanted in the queue it found.
  lemma ScanEnds(b0: Broker, b: Broker, f: Filter, until: int, done: set<nat>)
    requires b0.log <= b.log && ScanState(b, FoundIn(b0), f, until, done)
    ensures forall m :: m in done ==> m in b0.pending && Wanted(b0, f, m)
  {
    WantedEarlier(b0, b, f);
  }

  predicate WantedInQueue(b: Broker, f: Filter, m: nat) {
    m in b.pending && Wanted(b, f, m)
  }

  // No event has two messages in the queue that the filter wants.
  ghost predicate QueuedOnce(hash: Hash, b: Broker, f: Filter) {
    forall m: nat, n: nat | WantedInQueue(b, f, m) && WantedInQueue(b, f, n) ::
      Lineage(hash, b.log[m].dl) == Lineage(hash, b.log[n].dl) ==> m == n
  }

  // Of the messages in the list no two are of one event.
  ghost predicate OncePerLineage(hash: Hash, b: Broker, ms: seq<nat>) {
    forall i, j :: 0 <= i < j < |ms| && IsEvent(b, ms[i]) && IsEvent(b, ms[j]) ==>
      Lineage(hash, b.log[ms[i]].dl) != Lineage(hash, b.log[ms[j]].dl)
  }

  lemma OnceEach(hash: Hash, b: Broker, f: Filter, ms: seq<nat>)
    requires Distinct(ms) && forall m :: m in ms ==> WantedInQueue(b, f, m)
    ensures QueuedOnce(hash, b, f) ==> OncePerLineage(hash, b, ms)
  {
  }

  // How many messages fetching `m` can still lead to.
  function Credit(b: Broker, f: Filter, m: nat): nat {
    if Wanted(b, f, m) then 2 else 1
  }

  function Weight(b: Broker, f: Filter, until: int, m: nat): nat {
    if Settled(b, m, until) then 0 else Credit(b, f, m)
  }

  function Total(b: Broker, f: Filter, until: int, k: nat): nat {
    if k == 0 then 0 else Total(b, f, until, k - 1) + Weight(b, f, until, k - 1)
  }

  function Credits(b: Broker, f: Filter, msgs: seq<nat>): nat {
    if msgs == [] then 0 else Credit(b, f, msgs[0]) + Credits(b, f, msgs[1..])
  }

  lemma {:induction false} TotalBound(b: Broker, f: Filter, until: int, k: nat)
    ensures Total(b, f, until, k) <= 2 * k
  {
    if k > 0 {
      TotalBound(b, f, until, k - 1);
    }
  }

  lemma {:induction false} TotalMonotone(b: Broker, b': Broker, f: Filter, until: int, k: nat)
    requires forall m: nat :: m < k ==> Weight(b', f, until, m) <= Weight(b, f, until, m)
    ensures Total(b', f, until, k) <= Total(b, f, until, k)
  {
    if k > 0 {
      TotalMonotone(b, b', f, until, k - 1);
    }
  }

  lemma {:induction false} TotalDrop(b: Broker, b': Broker, f: Filter, until: int, k: nat, n: nat, drop: nat)
    requires n < k && Weight(b', f, until, n) + drop <= Weight(b, f, until, n)
    requires forall m: nat :: m < k ==> Weight(b', f, until, m) <= Weight(b, f, until, m)
    ensures Total(b', f, until, k) + drop <= Total(b, f, until, k)
  {
    if n == k - 1 {
      TotalMonotone(b, b', f, until, k - 1);
    } else {
      TotalDrop(b, b', f, until, k - 1, n, drop);
    }
  }

  predicate Distinct(s: seq<nat>) {
    forall i, j :: 0 <= i < j < |s| ==> s[i] != s[j]
  }

  // Fetching turns the weight of the fetched messages into credits.
  lemma {:induction false} FetchPays(b: Broker, b': Broker, f: Filter, until: int, msgs: seq<nat>)
    requires Distinct(msgs) && b'.log == b.log
    requires forall m :: m in msgs ==> m < |b.log| && !Settled(b, m, until) && Settled(b', m, until)
    requires forall m: nat :: m !in msgs ==> Weight(b', f, until, m) <= Weight(b, f, until, m)
    ensures Total(b', f, until, |b.log|) + Credits(b, f, msgs) <= Total(b, f, until, |b.log|)
    decreases |msgs|
  {
    if msgs == [] {
      TotalMonotone(b, b', f, until, |b.log|);
    } else {
      var n := msgs[0];
      var b1 := Delay(b, n, until);
      TotalDrop(b, b1, f, until, |b.log|, n, Credit(b, f, n));
      assert forall m :: m in msgs[1..] ==> m in msgs && m != n;
      forall m: nat | m !in msgs[1..] ensures Weight(b', f, until, m) <= Weight(b1, f, until, m) {
        assert m == n || m !in msgs;
      }
      FetchPays(b1, b', f, until, msgs[1..]);
      SameCredits(b, b1, f, msgs[1..]);
    }
  }

  lemma {:induction false} SameCredits(b: Broker, b': Broker, f: Filter, msgs: seq<nat>)
    requires forall m :: m in msgs ==> Credit(b', f, m) == Credit(b, f, m)
    ensures Credits(b', f, msgs) == Credits(b, f, msgs)
    decreases |msgs|
  {
    if msgs != [] {
      SameCredits(b, b', f, msgs[1..]);
    }
  }

  // The handling happened during a scan under filter `f`, while the cache held
  // the policy at the filter's generation or a later one.
  ghost predicate InScan(setup: Setup, b: Broker, h: Handling, f: Filter, until: int) {
    && Proper(setup, h) && NoPlainNak(h.path)
    && h.filter == Some(f) && f.policyName != "" && f.maxPolicyVersion > 0
    && h.n < |b.log| && h.msg == b.log[h.n]
    && setup.hasGeneration
    && (Wanted(b, f, h.n) ==> h.obs.generationAtStamp >= f.maxPolicyVersion)
    && forall x :: x in h.path ==> x.at + POLICY_SKIP_DELAY >= until
  }

  lemma ReplayUnfold(hash: Hash, s: Schedule, b: Broker, n: nat, path: seq<Exchange>)
    requires 1 <= |path| <= 3
    ensures var b1 := Effect(hash, s, b, n, path[0]);
            Replay(hash, s, b, n, path) ==
              if |path| == 1 then b1
              else var b2 := Effect(hash, s, b1, n, path[1]);
                   if |path| == 2 then b2 else Effect(hash, s, b2, n, path[2])
  {
    if |path| >= 2 {
      var rest := path[1..];
      var b1 := Effect(hash, s, b, n, path[0]);
      var b2 := Effect(hash, s, b1, n, rest[0]);
      var last := rest[1..];
      assert Replay(hash, s, b1, n, rest) == Replay(hash, s, b2, n, last);
      if |path| == 3 {
        assert last == [path[2]] && last[1..] == [];
      }
    }
  }

  // What handling one message can do to the queue: at most one new message,
  // which this scan does not want, and no earlier return of the old one.
  lemma HandlingEffect(hash: Hash, setup: Setup, b: Broker, h: Handling, f: Filter, until: int)
    requires InScan(setup, b, h, f, until) && Settled(b, h.n, until)
    ensures var b' := Replay(hash, setup.schedule, b, h.n, h.path);
      && Settled(b', h.n, until) && b.log <= b'.log
      && (b'.log == b.log || (Wanted(b, f, h.n) && |b'.log| == |b.log| + 1 && !Wanted(b', f, |b.log|)))
      && (forall m :: m in b'.pending ==> m in b.pending || |b.log| <= m < |b'.log|)
      && (forall m: nat | m < |b.log| && m != h.n ::
            && (m in b.pending <==> m in b'.pending)
            && (m in b.pending ==> b'.pending[m] == b.pending[m]))
  {
    var pc := Decide(setup, h.filter, h.msg, h.obs);
    PathShape(pc, h.path);
    var path := h.path;
    assert path[0] in path;
    ReplayUnfold(hash, setup.schedule, b, h.n, path);
    if |path| >= 2 {
      assert path[1] in path;
    }
  }

  lemma HandlingKeeps(hash: Hash, setup: Setup, b: Broker, h: Handling, f: Filter, until: int, found: Found, done: set<nat>)
    requires InScan(setup, b, h, f, until) && Settled(b, h.n, until) && Known(found, h.n)
    requires ScanState(b, found, f, until, done)
    ensures var b' := Replay(hash, setup.schedule, b, h.n, h.path);
      && ScanState(b', found, f, until, if Wanted(b, f, h.n) then done + {h.n} else done)
      && Total(b', f, until, |b'.log|) + 1 <= Total(b, f, until, |b.log|) + Credit(b, f, h.n)
      && b.log <= b'.log
      && (forall m: nat :: m < |b.log| && Settled(b, m, until) ==> Settled(b', m, until))
  {
    var b' := Replay(hash, setup.schedule, b, h.n, h.path);
    HandlingEffect(hash, setup, b, h, f, until);
    WantedEarlier(b, b', f);
    assert forall m: nat :: m < |b.log| ==> Settled(b, m, until) ==> Settled(b', m, until);
    WeightsAfter(b, b', f, until, Wanted(b, f, h.n));
  }

  // At most one unwanted message more, and none of the old ones any heavier.
  lemma WeightsAfter(b: Broker, b': Broker, f: Filter, until: int, attempted: bool)
    requires b.log <= b'.log && (b'.log == b.log || (attempted && |b'.log| == |b.log| + 1 && !Wanted(b', f, |b.log|)))
    requires forall m: nat :: m < |b.log| && Settled(b, m, until) ==> Settled(b', m, until)
    ensures Total(b', f, until, |b'.log|) <= Total(b, f, until, |b.log|) + if attempted then 1 else 0
  {
    WantedEarlier(b, b', f);
    forall m: nat | m < |b.log| ensures Weight(b', f, until, m) <= Weight(b, f, until, m) {
      assert Wanted(b, f, m) == Wanted(b', f, m);
    }
    TotalMonotone(b, b', f, until, |b.log|);
  }

  // Fetching within a scan: evaluated messages do not come back, and the
  // weight of what is fetched is paid for.
  lemma FetchKeeps(b: Broker, b': Broker, f: Filter, until: int, found: Found, done: set<nat>, msgs: seq<nat>, clock: int)
    requires ScanState(b, found, f, until, done) && clock + FETCH_WAIT <= until <= clock + POLICY_SKIP_DELAY
    requires b' == b.(pending := b'.pending) && b'.pending.Keys <= b.pending.Keys && Distinct(msgs)
    requires forall m :: m in msgs ==>
      && m in b.pending && b.pending[m] < clock + FETCH_WAIT
      && m in b'.pending && b'.pending[m] >= clock + ACK_WAIT
    requires forall m :: m in b'.pending && m !in msgs ==> b'.pending[m] == b.pending[m]
    ensures ScanState(b', found, f, until, done)
    ensures forall m :: m in msgs ==> m !in done && Known(found, m) && Settled(b', m, until)
    ensures Total(b', f, until, |b.log|) + Credits(b', f, msgs) <= Total(b, f, until, |b.log|)
  {
    assert forall m: nat :: Wanted(b', f, m) == Wanted(b, f, m);
    FetchPays(b, b', f, until, msgs);
    SameCredits(b, b', f, msgs);
  }

  // A scan's batch after `i` of its messages were handled; `evaluated` are the
  // messages the scan evaluated so far and `budget` bounds what it can handle.
  ghost predicate BatchHolds(b: Broker, f: Filter, found: Found, until: int, evaluated: seq<nat>, msgs: seq<nat>, i: nat, budget: nat) {
    && i <= |msgs| && Distinct(evaluated)
    && ScanState(b, found, f, until, set m | m in evaluated)
    && (forall k :: i <= k < |msgs| ==>
          msgs[k] < |b.log| && msgs[k] !in evaluated && Known(found, msgs[k]) && Settled(b, msgs[k], until))
    && i + Total(b, f, until, |b.log|) + Credits(b, f, msgs[i..]) <= budget
  }

  lemma BatchFetched(b: Broker, b': Broker, f: Filter, until: int, found: Found, evaluated: seq<nat>, msgs: seq<nat>,
                     clock: int, at: int)
    requires Distinct(evaluated) && ScanState(b, found, f, until, set m | m in evaluated)
    requires clock + FETCH_WAIT <= until <= clock + POLICY_SKIP_DELAY && clock < at < clock + FETCH_WAIT
    requires b' == b.(pending := b'.pending) && b'.pending.Keys <= b.pending.Keys && Distinct(msgs)
    requires forall m :: m in msgs ==> m in b.pending && b.pending[m] <= at && m in b'.pending && b'.pending[m] == at + ACK_WAIT
    requires forall m :: m in b'.pending && m !in msgs ==> b'.pending[m] == b.pending[m]
    ensures BatchHolds(b', f, found, until, evaluated, msgs, 0, Total(b, f, until, |b.log|))
  {
    FetchKeeps(b, b', f, until, found, (set m | m in evaluated), msgs, clock);
    assert forall k :: 0 <= k < |msgs| ==> msgs[k] in msgs;
    assert msgs[0..] == msgs;
  }

  lemma {:induction false} TimelyFrom(from: int, path: seq<Exchange>)
    requires Timely(from, path)
    ensures forall x :: x in path ==> from <= x.at
    decreases |path|
  {
    if path != [] {
      TimelyFrom(path[0].at, path[1..]);
      assert path == [path[0]] + path[1..];
    }
  }

  lemma BatchStep(hash: Hash, setup: Setup, b: Broker, h: Handling, f: Filter, found: Found, until: int,
                  evaluated: seq<nat>, msgs: seq<nat>, i: nat, budget: nat)
    requires Distinct(msgs) && BatchHolds(b, f, found, until, evaluated, msgs, i, budget)
    requires i < |msgs| && h.n == msgs[i] && InScan(setup, b, h, f, until)
    ensures var b' := Replay(hash, setup.schedule, b, h.n, h.path);
            var evaluated' := evaluated + if Attempts(setup, h) && Evaluates(setup, h.msg.dl) then [h.n] else [];
            BatchHolds(b', f, found, until, evaluated', msgs, i + 1, budget)
  {
    var b' := Replay(hash, setup.schedule, b, h.n, h.path);
    var done, wanted := (set m | m in evaluated), Wanted(b, f, h.n);
    HandlingKeeps(hash, setup, b, h, f, until, found, done);
    var evaluated' := evaluated + if Attempts(setup, h) && Evaluates(setup, h.msg.dl) then [h.n] else [];
    var done' := set m | m in evaluated';
    assert done' <= if wanted then done + {h.n} else done;
    assert msgs[i..][0] == msgs[i] && msgs[i..][1..] == msgs[i + 1..];
    forall m | m in msgs[i + 1..] ensures Credit(b', f, m) == Credit(b, f, m) {
      WantedEarlier(b, b', f);
    }
    SameCredits(b, b', f, msgs[i + 1..]);
  }
}
