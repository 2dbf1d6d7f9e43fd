/**
 What keeps a policy-triggered scan from evaluating twice, and what happens
 without it: a failed metadata update brings a message back into the same scan,
 and an event with two messages in the queue is evaluated for each.
 */
module RetryScans {
  import opened Prelude
  import opened Backoff
  import opened DeadLetters
  import opened RetryProtocol
  import opened RetryPaths

  // A scan's attempt at a message whose evaluation fails: what it reads at `now`
  // with the policy at `generation`, and how its two requests were answered.
  function FailedAttempt(setup: Setup, n: nat, dl: DeadLetter, f: Filter, now: int, generation: int, stored: Fate, last: Fate): Handling {
    var obs := Observed(now, now, generation, generation, false);
    var record := Recording(Stamp(setup, dl, generation), now);
    Handling(n, Parsed(dl), Some(f), obs,
             [Exchange(record, stored, now), Exchange(if stored == Delivered then Acking else Naking, last, now)])
  }

  // The scan handed the message to the evaluator.
  predicate Evaluated(setup: Setup, h: Handling) {
    Proper(setup, h) && Attempts(setup, h) && Evaluates(setup, h.msg.dl)
  }

  lemma AttemptEvaluates(setup: Setup, n: nat, dl: DeadLetter, f: Filter, now: int, generation: int, stored: Fate, last: Fate)
    requires setup.hasEvaluator && dl.eventType == Audit && Matches(f, dl)
    ensures var h := FailedAttempt(setup, n, dl, f, now, generation, stored, last);
      && Evaluated(setup, h) && Timely(now, h.path) && (forall x :: x in h.path ==> x.at == now)
      && (NoPlainNak(h.path) <==> stored == Delivered)
  {
    var h := FailedAttempt(setup, n, dl, f, now, generation, stored, last);
    var x, y := h.path[0], h.path[1];
    assert h.path == [x, y] && h.path[1..] == [y] && [y][1..] == [];
    assert Follows(Advance(y.pc, y.fate), []) && Follows(y.pc, [y]);
    assert Timely(now, []) && Timely(now, [y]);
    assert y in h.path;
  }

  const POLICY := Filter("policy", 1)

  function AuditEvent(payload: string): DeadLetter {
    DeadLetter(Audit, payload, "policy", 0, 0, None, 0, None, None)
  }

  // An event of ingest, alone in the queue.
  lemma Arrived(env: Env, dl: DeadLetter) returns (s: State)
    requires dl.retryCount == 0
    ensures Reachable(env, s) && s.broker == Append(EMPTY_BROKER, Parsed(dl), 0) && s.clock == 0 && s.deliveries == map[]
  {
    s := Execute(env, INIT, ArriveDeadLetter(dl));
    StepLeads(env, INIT, ArriveDeadLetter(dl));
  }

  // When the update does not go through, the plain NAK makes the message visible
  // at once, and the scan may fetch and evaluate it again, in the same instant.
  lemma EvaluatedTwice(env: Env, payload: string) returns (s1: State, s2: State, s3: State, s4: State, h: Handling, k: Handling)
    requires env.setup.hasEvaluator && env.setup.hasGeneration
    ensures Reachable(env, s1) && Holding(s1, 0, 0) && h.n == 0 && Evaluated(env.setup, h) && !NoPlainNak(h.path)
    ensures Leads(env, s1, s2) && s2.broker == Replay(env.hash, env.setup.schedule, s1.broker, 0, h.path)
    ensures Leads(env, s2, s3) && Holding(s3, 1, 0) && k.n == 0 && Evaluated(env.setup, k)
    ensures Leads(env, s3, s4) && s4.broker == Replay(env.hash, env.setup.schedule, s3.broker, 0, k.path)
    ensures h.filter == k.filter == Some(POLICY) && h.obs.generationAtStamp == k.obs.generationAtStamp == 1
    ensures s1.clock == s2.clock == s3.clock == s4.clock == 0
  {
    var dl := AuditEvent(payload);
    var s0 := Arrived(env, dl);
    h := FailedAttempt(env.setup, 0, dl, POLICY, 0, 1, Late, Delivered);
    k := FailedAttempt(env.setup, 0, dl, POLICY, 0, 1, Delivered, Delivered);
    AttemptEvaluates(env.setup, 0, dl, POLICY, 0, 1, Late, Delivered);
    AttemptEvaluates(env.setup, 0, dl, POLICY, 0, 1, Delivered, Delivered);
    assert s0.broker.pending - {} == s0.broker.pending;
    s1 := FetchLeads(env, s0, 0, {}, 0, [0]);
    HideOnly(s0.broker.(pending := s0.broker.pending - {}), [0], ACK_WAIT);
    LeadsOn(env, INIT, s0, s1);
    assert Holding(s1, 0, [0][0]);
    s2 := HandlingLeads(env, s1, 0, h, 0);
    NakReplay(env, s1.broker, h);
    assert forall x :: x in s2.deliveries ==> x < 1 by {
      assert forall x :: x in s1.deliveries ==> x < 1;
    }
    s3 := FetchLeads(env, s2, 1, {}, 0, [0]);
    HideOnly(s2.broker.(pending := s2.broker.pending - {}), [0], ACK_WAIT);
    assert Holding(s3, 1 + 0, [0][0]);
    s4 := HandlingLeads(env, s3, 1, k, 0);
  }

  lemma NakReplay(env: Env, b: Broker, h: Handling)
    requires |h.path| == 2 && h.path[0].fate == Late && h.path[1].pc == Naking && h.path[1].fate == Delivered
    requires h.n in b.pending
    ensures Replay(env.hash, env.setup.schedule, b, h.n, h.path) == Delay(b, h.n, h.path[1].at)
  {
    ReplayUnfold(env.hash, env.setup.schedule, b, h.n, h.path);
  }

  // Whenever an event has two wanted messages in the queue, some scan that nobody
  // disturbs and whose updates all succeed evaluates it for both of them, in one
  // batch.
  lemma SameEventTwice(env: Env, s: State, f: Filter, i: nat, j: nat) returns (s1: State, s2: State, s3: State, h: Handling, k: Handling)
    requires env.setup.hasEvaluator && i != j && WantedInQueue(s.broker, f, i) && WantedInQueue(s.broker, f, j)
    requires s.broker.log[i].dl.eventType == s.broker.log[j].dl.eventType == Audit
    ensures Leads(env, s, s1) && Leads(env, s1, s2) && Leads(env, s2, s3)
    ensures h.n == i && k.n == j && Evaluated(env.setup, h) && Evaluated(env.setup, k)
    ensures NoPlainNak(h.path) && NoPlainNak(k.path) && h.filter == k.filter == Some(f)
    ensures h.obs.generationAtStamp == k.obs.generationAtStamp == f.maxPolicyVersion
    ensures s2.broker == Replay(env.hash, env.setup.schedule, s1.broker, i, h.path)
    ensures s3.broker == Replay(env.hash, env.setup.schedule, s2.broker, j, k.path)
    ensures s1.clock == s2.clock == s3.clock
  {
    var b := s.broker;
    var now := Later(s.clock, Later(b.pending[i], b.pending[j]));
    var d;
    d, s1 := FetchTwo(env, s, i, j, now);
    h := FailedAttempt(env.setup, i, b.log[i].dl, f, now, f.maxPolicyVersion, Delivered, Delivered);
    k := FailedAttempt(env.setup, j, b.log[j].dl, f, now, f.maxPolicyVersion, Delivered, Delivered);
    AttemptEvaluates(env.setup, i, b.log[i].dl, f, now, f.maxPolicyVersion, Delivered, Delivered);
    AttemptEvaluates(env.setup, j, b.log[j].dl, f, now, f.maxPolicyVersion, Delivered, Delivered);
    s2 := HandlingLeads(env, s1, d, h, now);
    LogStays(env, s1.broker, h);
    s3 := HandlingLeads(env, s2, d + 1, k, now);
  }

  lemma FetchTwo(env: Env, s: State, i: nat, j: nat, now: int) returns (d: nat, s1: State)
    requires i != j && i in s.broker.pending && j in s.broker.pending
    requires s.broker.pending[i] <= now && s.broker.pending[j] <= now && s.clock <= now
    ensures Leads(env, s, s1) && s1.clock == now && Holding(s1, d, i) && Holding(s1, d + 1, j) && s1.broker.log == s.broker.log
  {
    var b, msgs := s.broker, [i, j];
    d := AboveAll(s.deliveries.Keys);
    assert b.pending - {} == b.pending;
    s1 := FetchLeads(env, s, d, {}, now, msgs);
    HideOnly(b.(pending := b.pending - {}), msgs, now + ACK_WAIT);
    assert Holding(s1, d + 0, msgs[0]) && Holding(s1, d + 1, msgs[1]);
  }

  function Later(a: int, b: int): int {
    if a < b then b else a
  }

  lemma LogStays(env: Env, b: Broker, h: Handling)
    requires |h.path| == 2
    ensures b.log <= Replay(env.hash, env.setup.schedule, b, h.n, h.path).log
  {
    ReplayUnfold(env.hash, env.setup.schedule, b, h.n, h.path);
  }

  // Such a queue comes about: a failed attempt is recorded, and its ack is lost.
  lemma LostAckLeavesTwo(env: Env, payload: string) returns (s: State)
    requires env.setup.hasEvaluator
    ensures Reachable(env, s) && |s.broker.log| == 2 && !QueuedOnce(env.hash, s.broker, POLICY)
  {
    var dl := AuditEvent(payload);
    var s0 := Arrived(env, dl);
    var h := FailedAttempt(env.setup, 0, dl, POLICY, 0, 0, Delivered, Late);
    AttemptEvaluates(env.setup, 0, dl, POLICY, 0, 0, Delivered, Late);
    assert s0.broker.pending - {} == s0.broker.pending;
    var s1 := FetchLeads(env, s0, 0, {}, 0, [0]);
    HideOnly(s0.broker.(pending := s0.broker.pending - {}), [0], ACK_WAIT);
    LeadsOn(env, INIT, s0, s1);
    assert Holding(s1, 0, [0][0]);
    s := HandlingLeads(env, s1, 0, h, 0);
    LeadsOn(env, INIT, s1, s);
    ReplayUnfold(env.hash, env.setup.schedule, s1.broker, 0, h.path);
    var next := Successor(env.setup.schedule, dl, 0);
    assert s.broker.log == [Parsed(dl), Parsed(next)];
    assert WantedInQueue(s.broker, POLICY, 0) && WantedInQueue(s.broker, POLICY, 1);
  }
}
