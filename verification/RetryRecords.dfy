/**
 What an attempt at a dead letter decides and what it leaves behind when it
 fails, read off the event, the generation of its policy and the schedule; and
 which later scans want the record it leaves.
 */
module RetryRecords {
  import opened Prelude
  import opened Backoff
  import opened DeadLetters
  import opened RetryProtocol
  import opened RetryPaths

  // ---------------------------------------------------------------------
  // The decision
  // ---------------------------------------------------------------------

  // A scan for a policy wants what failed under an older version; the drain
  // wants what is due, or whose policy has changed since.
  predicate Due(setup: Setup, filter: Option<Filter>, dl: DeadLetter, obs: Observed) {
    match filter
    case Some(Filter(name, version)) => (name != "" ==> dl.policyName == name) && (version > 0 ==> dl.policyVersion < version)
    case None =>
      || (setup.hasGeneration && dl.policyVersion < obs.generationAtCheck)
      || dl.nextRetryAfter.None?
      || dl.nextRetryAfter.value < obs.now
  }

  // The later of two versions, the second of them if there is a lookup.
  predicate Newest(setup: Setup, version: int, generation: int, newest: int) {
    && version <= newest && (newest == version || (setup.hasGeneration && newest == generation))
    && (setup.hasGeneration ==> generation <= newest)
  }

  // The same event, held against the newest version of its policy.
  predicate Held(setup: Setup, dl: DeadLetter, generation: int, held: DeadLetter) {
    held == dl.(policyVersion := held.policyVersion) && Newest(setup, dl.policyVersion, generation, held.policyVersion)
  }

  // An evaluator sees audit events, and what it does not resolve has failed, as
  // has an event of a type without a source stream.
  predicate FailsAtOnce(setup: Setup, dl: DeadLetter, obs: Observed) {
    (setup.hasEvaluator && dl.eventType == Audit && !obs.resolved) || (dl.eventType != Audit && dl.eventType != K8sEvent)
  }

  // What there is to do for a fetched message.
  lemma DecisionMeans(setup: Setup, filter: Option<Filter>, msg: Message, obs: Observed)
    ensures var pc := Decide(setup, filter, msg, obs);
      match msg
      case Corrupt(_) => pc == Acking
      case Parsed(dl) =>
        if !Due(setup, filter, dl, obs) then
          pc.Deferring? && (filter.Some? ==> pc.delay == 35_000_000_000) &&
          (filter.None? ==> pc.delay == DeferralDelay(setup.schedule, dl.nextRetryAfter, obs.clock))
        else
          && (if FailsAtOnce(setup, dl, obs) then pc.Recording? else pc.Republishing?)
          && pc.now == obs.now && Held(setup, dl, obs.generationAtStamp, pc.dl)
    ensures msg.Parsed? ==> (Attempts(setup, Handling(0, msg, filter, obs, [])) <==> Due(setup, filter, msg.dl, obs))
    ensures msg.Parsed? ==> (Evaluates(setup, msg.dl) <==> setup.hasEvaluator && msg.dl.eventType == Audit)
  {
  }

  // A policy-triggered pass retries exactly the events of this policy that failed
  // under an older version, and puts the others back until it is over.
  predicate ServedFor(setup: Setup, h: Handling, policyName: string, version: int) {
    h.path != [] && var pc := h.path[0].pc;
    match h.msg
    case Corrupt(_) => pc == Acking
    case Parsed(dl) =>
      if (policyName == "" || dl.policyName == policyName) && (version <= 0 || dl.policyVersion < version) then
        && (if FailsAtOnce(setup, dl, h.obs) then pc.Recording? else pc.Republishing?)
        && pc.now == h.obs.now && Held(setup, dl, h.obs.generationAtStamp, pc.dl)
      else pc == Deferring(35_000_000_000)
  }

  lemma ProperlyServed(setup: Setup, h: Handling, policyName: string, version: int)
    requires Proper(setup, h) && h.filter == Some(Filter(policyName, version))
    ensures ServedFor(setup, h, policyName, version)
  {
    DecisionMeans(setup, h.filter, h.msg, h.obs);
  }

  // The message was due, and of the kind that is evaluated in place.
  predicate Examined(setup: Setup, h: Handling) {
    h.msg.Parsed? && Due(setup, h.filter, h.msg.dl, h.obs) && setup.hasEvaluator && h.msg.dl.eventType == Audit
  }

  // The messages that the evaluator saw, in order.
  function ExaminedIn(setup: Setup, hs: seq<Handling>): seq<nat> {
    if hs == [] then []
    else
      var h := hs[|hs| - 1];
      ExaminedIn(setup, hs[..|hs| - 1]) + if Examined(setup, h) then [h.n] else []
  }

  lemma ExaminedNext(setup: Setup, hs: seq<Handling>, h: Handling)
    ensures ExaminedIn(setup, hs + [h]) == ExaminedIn(setup, hs) + if Attempts(setup, h) && Evaluates(setup, h.msg.dl) then [h.n] else []
  {
    assert (hs + [h])[..|hs|] == hs;
    DecisionMeans(setup, h.filter, h.msg, h.obs);
  }

  // ---------------------------------------------------------------------
  // The record of a failed attempt
  // ---------------------------------------------------------------------

  // A time stored with whole seconds.
  predicate InSecond(stored: Option<int>, t: int) {
    stored.Some? && stored.value % 1_000_000_000 == 0 && stored.value <= t < stored.value + 1_000_000_000
  }

  // The same event with one retry more, under the newest version it was held
  // against, due after the wait for that many retries.
  predicate IsRecord(setup: Setup, dl: DeadLetter, now: int, generation: int, record: DeadLetter) {
    && record.eventType == dl.eventType && record.policyName == dl.policyName && record.payload == dl.payload
    && record.timestamp == dl.timestamp && record.resource == dl.resource
    && record.retryCount == dl.retryCount + 1
    && Newest(setup, dl.policyVersion, generation, record.policyVersion)
    && InSecond(record.lastRetryAt, now)
    && InSecond(record.nextRetryAfter, now + CalculateBackoff(setup.schedule, dl.retryCount + 1))
  }

  // The requests stored the record, if it was not known already.
  predicate Recorded(path: seq<Exchange>) {
    exists x :: x in path && x.pc.Recording? && x.fate != Late
  }

  predicate Concerns(pc: Pc, dl: DeadLetter, now: int) {
    pc == Republishing(dl, now) || pc == Recording(dl, now)
  }

  lemma {:induction false} PathStores(hash: Hash, schedule: Schedule, b: Broker, n: nat, pc: Pc, path: seq<Exchange>, dl: DeadLetter, now: int)
    requires Follows(pc, path) && (pc.Republishing? || pc.Recording? ==> Concerns(pc, dl, now))
    ensures var b', next := Replay(hash, schedule, b, n, path), Successor(schedule, dl, now);
      && b'.log == b.log + (if Recorded(path) && IdOf(hash, next) !in b.dlqIds then [Parsed(next)] else [])
      && (Recorded(path) ==> pc.Republishing? || pc.Recording?)
    decreases |path|
  {
    if pc == Done {
      assert b.log + [] == b.log;
    } else {
      var b1, rest := Effect(hash, schedule, b, n, path[0]), path[1..];
      assert path == [path[0]] + rest;
      PathStores(hash, schedule, b1, n, Advance(pc, path[0].fate), rest, dl, now);
      assert Recorded(path) <==> (pc.Recording? && path[0].fate != Late) || Recorded(rest) by {
        if pc.Recording? && path[0].fate != Late {
          assert path[0] in path;
        }
      }
      assert b.log + [] == b.log;
    }
  }

  // A failed attempt stores one record of its event, and nothing else is stored.
  lemma HandlingRecords(hash: Hash, setup: Setup, b: Broker, h: Handling)
    requires Proper(setup, h) && h.n < |b.log| && h.msg == b.log[h.n]
    ensures var b' := Replay(hash, setup.schedule, b, h.n, h.path);
      && b.log <= b'.log && |b'.log| <= |b.log| + 1
      && (|b'.log| > |b.log| ==>
            && h.msg.Parsed? && Due(setup, h.filter, h.msg.dl, h.obs) && Recorded(h.path)
            && b'.log[|b.log|].Parsed?
            && IsRecord(setup, h.msg.dl, h.obs.now, h.obs.generationAtStamp, b'.log[|b.log|].dl))
  {
    var pc := Decide(setup, h.filter, h.msg, h.obs);
    DecisionMeans(setup, h.filter, h.msg, h.obs);
    if pc.Republishing? || pc.Recording? {
      PathStores(hash, setup.schedule, b, h.n, pc, h.path, pc.dl, h.obs.now);
      SuccessorIsRecord(setup, h.msg.dl, h.obs.now, h.obs.generationAtStamp, pc.dl);
    } else {
      var any := DeadLetter(Audit, "", "", 0, 0, None, 0, None, None);
      PathStores(hash, setup.schedule, b, h.n, pc, h.path, any, 0);
    }
  }

  lemma SuccessorIsRecord(setup: Setup, dl: DeadLetter, now: int, generation: int, held: DeadLetter)
    requires Held(setup, dl, generation, held)
    ensures IsRecord(setup, dl, now, generation, Successor(setup.schedule, held, now))
  {
    StoredSecond(now);
    StoredSecond(now + CalculateBackoff(setup.schedule, dl.retryCount + 1));
  }

  lemma {:induction false} PathConcerns(pc: Pc, path: seq<Exchange>, dl: DeadLetter, now: int)
    requires Follows(pc, path) && (pc.Republishing? || pc.Recording? ==> Concerns(pc, dl, now))
    ensures forall x :: x in path && (x.pc.Republishing? || x.pc.Recording?) ==> Concerns(x.pc, dl, now)
    decreases |path|
  {
    if pc != Done {
      assert path == [path[0]] + path[1..];
      PathConcerns(Advance(pc, path[0].fate), path[1..], dl, now);
    }
  }

  // Whatever others did to the queue before a request arrives, it stores this
  // record of the event or nothing, and puts back this event's payload under its
  // own ID or nothing.
  lemma RequestRecords(hash: Hash, setup: Setup, h: Handling, x: Exchange, b: Broker, clock: int)
    requires Proper(setup, h) && h.msg.Parsed? && x in h.path
    ensures var b', dl := Perform(hash, setup.schedule, b, h.n, x.pc, clock), h.msg.dl;
      && (b'.log == b.log
          || (x.pc.Recording? && |b'.log| == |b.log| + 1 && b.log <= b'.log && b'.log[|b.log|].Parsed?
              && IsRecord(setup, dl, h.obs.now, h.obs.generationAtStamp, b'.log[|b.log|].dl)))
      && (b'.source == b.source
          || (x.pc.Republishing? && b'.source == b.source +
                [SourceMessage(SourceId(dl.eventType, dl.policyName, hash(dl.payload), dl.timestamp), dl.payload, |b.log|)]))
  {
    var pc := Decide(setup, h.filter, h.msg, h.obs);
    DecisionMeans(setup, h.filter, h.msg, h.obs);
    if pc.Republishing? || pc.Recording? {
      PathConcerns(pc, h.path, pc.dl, h.obs.now);
      SuccessorIsRecord(setup, h.msg.dl, h.obs.now, h.obs.generationAtStamp, pc.dl);
    } else {
      PathConcerns(pc, h.path, h.msg.dl, 0);
      PathStays(pc, h.path);
    }
  }

  lemma {:induction false} PathStays(pc: Pc, path: seq<Exchange>)
    requires Follows(pc, path) && !pc.Republishing? && !pc.Recording?
    ensures forall x :: x in path ==> !x.pc.Republishing? && !x.pc.Recording?
    decreases |path|
  {
    if pc != Done {
      assert path == [path[0]] + path[1..];
      PathStays(Advance(pc, path[0].fate), path[1..]);
    }
  }

  // ---------------------------------------------------------------------
  // Which scans want the record
  // ---------------------------------------------------------------------

  // Exactly those for a version newer than the ones the event was held against.
  lemma RecordWanted(setup: Setup, dl: DeadLetter, now: int, generation: int, b: Broker, i: nat)
    requires setup.hasGeneration && IsEvent(b, i) && IsRecord(setup, dl, now, generation, b.log[i].dl)
    ensures forall version: int :: version > 0 ==>
      (Wanted(b, Filter(dl.policyName, version), i) <==> version > generation && version > dl.policyVersion)
  {
  }

  // What a handling recorded as failed is, in every state that any run leads to,
  // retried by the scan for a newer version when that fetches it, and put back
  // for 35 seconds by a scan for the same version or an older one.
  lemma NextScanRetries(env: Env, b: Broker, h: Handling, s: State, t: State, k: Handling, version: int)
    requires env.setup.hasGeneration && Proper(env.setup, h) && h.n < |b.log| && h.msg == b.log[h.n]
    requires s.broker == Replay(env.hash, env.setup.schedule, b, h.n, h.path) && |s.broker.log| > |b.log| && Leads(env, s, t)
    requires k.n == |b.log| < |t.broker.log| && k.msg == t.broker.log[k.n] && Proper(env.setup, k)
    requires h.msg.Parsed? && k.filter == Some(Filter(h.msg.dl.policyName, version)) && version > 0
    ensures k.msg == s.broker.log[k.n] && k.path != []
    ensures if version > h.obs.generationAtStamp && version > h.msg.dl.policyVersion then
              if FailsAtOnce(env.setup, h.msg.dl, k.obs) then k.path[0].pc.Recording? else k.path[0].pc.Republishing?
            else k.path[0].pc == Deferring(35_000_000_000)
  {
    HandlingRecords(env.hash, env.setup, b, h);
    RecordWanted(env.setup, h.msg.dl, h.obs.now, h.obs.generationAtStamp, s.broker, |b.log|);
    var run :| Possible(env, s, run) && t == After(env, s, run);
    RunGrows(env, s, run);
    assert t.broker.log[..|s.broker.log|][k.n] == t.broker.log[k.n];
    DecisionMeans(env.setup, k.filter, k.msg, k.obs);
    assert Wanted(s.broker, k.filter.value, k.n) <==> Due(env.setup, k.filter, k.msg.dl, k.obs);
  }

  // ---------------------------------------------------------------------
  // Versions over whole runs
  // ---------------------------------------------------------------------

  // The generations that a step makes the active one of a policy.
  function Activated(step: Step): set<(string, int)> {
    match step
    case SetGeneration(name, value) => {(name, value)}
    case _ => {}
  }

  function AllActivated(run: seq<Step>): set<(string, int)> {
    if run == [] then {} else Activated(run[0]) + AllActivated(run[1..])
  }

  // The version is the stored event's own or was once the active generation of
  // its policy, which is zero while there is none.
  predicate VersionFrom(active: set<(string, int)>, stored: DeadLetter, version: int) {
    version == stored.policyVersion || version == 0 || (stored.policyName, version) in active
  }

  // Message `p` was retried and `i` stored for it, under such a version.
  ghost predicate RecordedUnder(hash: Hash, active: set<(string, int)>, b: Broker, p: int, i: int) {
    Parent(hash, b, p, i) && VersionFrom(active, b.log[p].dl, b.log[i].dl.policyVersion)
  }

  ghost predicate RecordedReally(hash: Hash, active: set<(string, int)>, b: Broker, i: int) {
    exists p :: RecordedUnder(hash, active, b, p, i)
  }

  predicate HeldReally(active: set<(string, int)>, b: Broker, d: Delivery) {
    d.pc.Republishing? || d.pc.Recording? ==> IsEvent(b, d.n) && VersionFrom(active, b.log[d.n].dl, d.pc.dl.policyVersion)
  }

  ghost predicate Really(hash: Hash, active: set<(string, int)>, s: State) {
    && (forall name :: name in s.generation ==> (name, s.generation[name]) in active)
    && (forall i {:trigger RecordedReally(hash, active, s.broker, i)} :: IsRetry(s.broker, i) ==> RecordedReally(hash, active, s.broker, i))
    && (forall d :: d in s.deliveries ==> HeldReally(active, s.broker, s.deliveries[d]))
    && (forall k :: 0 <= k < |s.flight| ==> HeldReally(active, s.broker, s.flight[k]))
  }

  lemma StillReally(hash: Hash, active: set<(string, int)>, active': set<(string, int)>, b: Broker, b': Broker)
    requires active <= active' && b.log <= b'.log
    ensures forall i {:trigger RecordedReally(hash, active', b', i)} ::
      RecordedReally(hash, active, b, i) ==> RecordedReally(hash, active', b', i)
    ensures forall d :: HeldReally(active, b, d) ==> HeldReally(active', b', d)
  {
    assert forall i :: 0 <= i < |b.log| ==> b'.log[..|b.log|][i] == b'.log[i];
    forall i | RecordedReally(hash, active, b, i) ensures RecordedReally(hash, active', b', i) {
      var p :| RecordedUnder(hash, active, b, p, i);
      assert RecordedUnder(hash, active', b', p, i);
    }
  }

  // A request stores nothing, or a record under the version its delivery holds.
  lemma RequestReally(env: Env, active: set<(string, int)>, b: Broker, d: Delivery, clock: int)
    requires DeliveryInv(env.hash, b, d) && HeldReally(active, b, d)
    ensures var b' := Perform(env.hash, env.setup.schedule, b, d.n, d.pc, clock);
      && b.log <= b'.log && |b'.log| <= |b.log| + 1
      && (|b'.log| > |b.log| && IsRetry(b', |b.log|) ==> RecordedReally(env.hash, active, b', |b.log|))
  {
    var b' := Perform(env.hash, env.setup.schedule, b, d.n, d.pc, clock);
    if |b'.log| > |b.log| {
      assert RecordedUnder(env.hash, active, b', d.n, |b.log|);
    }
  }

  // What a step adds to the log, if anything, is a fresh message or a record.
  lemma StepAppends(env: Env, active: set<(string, int)>, s: State, step: Step)
    requires Inv(env.hash, s) && Really(env.hash, active, s) && Enabled(s, step)
    ensures var b, b' := s.broker, Execute(env, s, step).broker;
      && b.log <= b'.log && |b'.log| <= |b.log| + 1
      && (|b'.log| > |b.log| && IsRetry(b', |b.log|) ==> RecordedReally(env.hash, active, b', |b.log|))
  {
    match step
    case Request(d, fate) => RequestReally(env, active, s.broker, s.deliveries[d], s.clock);
    case Lands(k) => RequestReally(env, active, s.broker, s.flight[k], s.clock);
    case _ =>
  }

  lemma StepHolds(env: Env, active: set<(string, int)>, s: State, step: Step)
    requires Really(env.hash, active, s) && Enabled(s, step) && s.broker.log <= Execute(env, s, step).broker.log
    ensures var s', active' := Execute(env, s, step), active + Activated(step);
      && (forall d :: d in s'.deliveries ==> HeldReally(active', s'.broker, s'.deliveries[d]))
      && (forall k :: 0 <= k < |s'.flight| ==> HeldReally(active', s'.broker, s'.flight[k]))
  {
    var s', active' := Execute(env, s, step), active + Activated(step);
    StillReally(env.hash, active, active', s.broker, s'.broker);
    if step.Judge? {
      DecisionMeans(env.setup, step.filter, s.broker.log[s.deliveries[step.d].n], step.obs);
    }
  }

  lemma StepReally(env: Env, active: set<(string, int)>, s: State, step: Step)
    requires Inv(env.hash, s) && Really(env.hash, active, s) && Enabled(s, step)
    ensures Really(env.hash, active + Activated(step), Execute(env, s, step))
  {
    var s', active' := Execute(env, s, step), active + Activated(step);
    StepAppends(env, active, s, step);
    StepHolds(env, active, s, step);
    StillReally(env.hash, active, active', s.broker, s'.broker);
    StillReally(env.hash, active, active', s'.broker, s'.broker);
    forall i | IsRetry(s'.broker, i) ensures RecordedReally(env.hash, active', s'.broker, i) {
      if i < |s.broker.log| {
        assert s'.broker.log[..|s.broker.log|][i] == s'.broker.log[i];
        assert RecordedReally(env.hash, active, s.broker, i);
      }
    }
  }

  lemma {:induction false} RunReally(env: Env, active: set<(string, int)>, s: State, run: seq<Step>)
    requires Inv(env.hash, s) && Really(env.hash, active, s) && Possible(env, s, run)
    ensures Really(env.hash, active + AllActivated(run), After(env, s, run))
    decreases |run|
  {
    if run == [] {
      assert active + {} == active;
    } else {
      StepReally(env, active, s, run[0]);
      StepKeeps(env, s, run[0]);
      RunReally(env, active + Activated(run[0]), Execute(env, s, run[0]), run[1..]);
      assert active + Activated(run[0]) + AllActivated(run[1..]) == active + AllActivated(run);
    }
  }

  // Over every run, a failed retry is recorded under the version of the message
  // retried or under a generation that was the active one of its policy; never
  // under one that its policy has not had.
  lemma VersionsWereActive(env: Env, run: seq<Step>, i: nat)
    requires Possible(env, INIT, run) && IsRetry(After(env, INIT, run).broker, i)
    ensures RecordedReally(env.hash, AllActivated(run), After(env, INIT, run).broker, i)
  {
    RunReally(env, {}, INIT, run);
    assert {} + AllActivated(run) == AllActivated(run);
  }
}
