/**
 The dead-letter retry protocol as a step system: any number of deliveries in
 progress at competing replicas, interleaved one broker request at a time with
 ingest, policy changes, requests that arrive late or never, lost replies, late
 acks, redelivery and crashes. Deduplication windows never expire.
 */
module RetryProtocol {
  import opened Prelude
  import opened Backoff
  import opened DeadLetters

  // A message of the source stream, and how long the dead-letter log was when
  // the stream accepted it.
  datatype SourceMessage = SourceMessage(id: SourceId, payload: string, at: nat)

  // The dead-letter stream is a log; `pending` holds the sequence numbers not
  // yet acked and when each becomes visible. `acks` are on their way.
  datatype Broker = Broker(
    log: seq<Message>,
    pending: map<nat, int>,
    dlqIds: set<DlqId>,
    acks: set<nat>,
    source: seq<SourceMessage>
  )

  const EMPTY_BROKER := Broker([], map[], {}, {}, [])

  predicate Accepted(b: Broker, id: SourceId) {
    exists k :: 0 <= k < |b.source| && b.source[k].id == id
  }

  function StoreSource(b: Broker, id: SourceId, payload: string): Broker {
    if Accepted(b, id) then b else b.(source := b.source + [SourceMessage(id, payload, |b.log|)])
  }

  function Append(b: Broker, msg: Message, clock: int): Broker {
    b.(log := b.log + [msg], pending := b.pending[|b.log| := clock])
  }

  function StoreDlq(b: Broker, id: DlqId, dl: DeadLetter, clock: int): Broker {
    if id in b.dlqIds then b
    else Append(b, Parsed(dl), clock).(dlqIds := b.dlqIds + {id})
  }

  function Delay(b: Broker, n: nat, until: int): Broker {
    if n in b.pending then b.(pending := b.pending[n := until]) else b
  }

  function Settle(b: Broker, n: nat): Broker {
    b.(pending := b.pending - {n})
  }

  // The effect of the current request of a delivery of message `n`.
  function Perform(hash: Hash, schedule: Schedule, b: Broker, n: nat, pc: Pc, clock: int): Broker {
    match pc
    case Republishing(dl, _) => StoreSource(b, Lineage(hash, dl), dl.payload)
    case Recording(dl, now) =>
      var next := Successor(schedule, dl, now);
      StoreDlq(b, IdOf(hash, next), next, clock)
    case Acking => b.(acks := b.acks + {n})
    case Naking => Delay(b, n, clock)
    case Deferring(delay) => Delay(b, n, clock + delay)
    case _ => b
  }

  datatype Delivery = Delivery(n: nat, pc: Pc)

  // `flight` holds the requests that were given up and may still reach the broker.
  datatype State = State(
    broker: Broker,
    clock: int,
    deliveries: map<nat, Delivery>,
    generation: map<string, int>,
    flight: seq<Delivery>)

  datatype Step =
    | Tick(elapsed: nat)
    | ArriveDeadLetter(dl: DeadLetter)
    | ArriveCorrupt(raw: string)
    | SetGeneration(policyName: string, value: int)
    | Fetch(d: nat, n: nat)
    | Judge(d: nat, filter: Option<Filter>, obs: Observed)
    | Request(d: nat, fate: Fate)
    | Lands(k: nat)
    | AckArrives(n: nat)
    | Crash(d: nat)

  // The fixed parameters of a run.
  datatype Env = Env(hash: Hash, setup: Setup)

  const INIT := State(EMPTY_BROKER, 0, map[], map[], [])

  function Generation(s: State, policyName: string): int {
    if policyName in s.generation then s.generation[policyName] else 0
  }

  // There is a request to make.
  predicate Asking(pc: Pc) {
    pc != Fetched && pc != Done
  }

  predicate Enabled(s: State, step: Step) {
    match step
    // Ingest stores fresh events only, without a message ID.
    case ArriveDeadLetter(dl) => dl.retryCount == 0
    case Fetch(d, n) => d !in s.deliveries && n in s.broker.pending && s.broker.pending[n] <= s.clock
    case Judge(d, _, obs) =>
      && d in s.deliveries && s.deliveries[d].pc == Fetched
      && s.deliveries[d].n < |s.broker.log|
      && (s.broker.log[s.deliveries[d].n].Parsed? ==>
            obs.generationAtStamp == Generation(s, s.broker.log[s.deliveries[d].n].dl.policyName))
    case Request(d, _) => d in s.deliveries && Asking(s.deliveries[d].pc)
    case Lands(k) => k < |s.flight| && Asking(s.flight[k].pc)
    case AckArrives(n) => n in s.broker.acks
    case _ => true
  }

  function Execute(env: Env, s: State, step: Step): State
    requires Enabled(s, step)
  {
    match step
    case Tick(elapsed) => s.(clock := s.clock + elapsed)
    case ArriveDeadLetter(dl) => s.(broker := Append(s.broker, Parsed(dl), s.clock))
    case ArriveCorrupt(raw) => s.(broker := Append(s.broker, Corrupt(raw), s.clock))
    case SetGeneration(name, value) => s.(generation := s.generation[name := value])
    case Fetch(d, n) =>
      s.(broker := Delay(s.broker, n, s.clock + ACK_WAIT), deliveries := s.deliveries[d := Delivery(n, Fetched)])
    case Judge(d, filter, obs) =>
      var n := s.deliveries[d].n;
      s.(deliveries := s.deliveries[d := Delivery(n, Decide(env.setup, filter, s.broker.log[n], obs))])
    case Request(d, fate) =>
      var Delivery(n, pc) := s.deliveries[d];
      var b := if fate == Late then s.broker
               else Perform(env.hash, env.setup.schedule, s.broker, n, pc, s.clock);
      s.(broker := b, deliveries := s.deliveries[d := Delivery(n, Advance(pc, fate))],
         flight := if fate == Late then s.flight + [s.deliveries[d]] else s.flight)
    case Lands(k) =>
      var Delivery(n, pc) := s.flight[k];
      s.(broker := Perform(env.hash, env.setup.schedule, s.broker, n, pc, s.clock), flight := s.flight[..k] + s.flight[k + 1..])
    case AckArrives(n) => s.(broker := Settle(s.broker, n))
    case Crash(d) => s.(deliveries := s.deliveries - {d})
  }

  // A run is a sequence of steps, each enabled where it happens.
  predicate Possible(env: Env, s: State, run: seq<Step>)
    decreases |run|
  {
    run == [] || (Enabled(s, run[0]) && Possible(env, Execute(env, s, run[0]), run[1..]))
  }

  function After(env: Env, s: State, run: seq<Step>): State
    requires Possible(env, s, run)
    decreases |run|
  {
    if run == [] then s else After(env, Execute(env, s, run[0]), run[1..])
  }

  // ---------------------------------------------------------------------
  // What every step keeps
  // ---------------------------------------------------------------------

  predicate IsEvent(b: Broker, i: int) {
    0 <= i < |b.log| && b.log[i].Parsed?
  }

  // Message `j` is still queued and descends from, or is, message `i`.
  ghost predicate Carries(hash: Hash, b: Broker, i: int, j: int)
    requires IsEvent(b, i)
  {
    && IsEvent(b, j) && j in b.pending
    && Lineage(hash, b.log[j].dl) == Lineage(hash, b.log[i].dl)
    && b.log[j].dl.retryCount >= b.log[i].dl.retryCount
  }

  ghost predicate Covered(hash: Hash, b: Broker, i: int)
    requires IsEvent(b, i)
  {
    Accepted(b, Lineage(hash, b.log[i].dl)) || exists j :: Carries(hash, b, i, j)
  }

  // An ack of `n` loses nothing: the source has the payload, or a successor
  // was stored at some time.
  ghost predicate Justified(hash: Hash, b: Broker, n: int) {
    IsEvent(b, n) ==>
      var dl := b.log[n].dl;
      || Accepted(b, Lineage(hash, dl))
      || DlqId(Lineage(hash, dl), dl.retryCount + 1) in b.dlqIds
  }

  // Message `i` was recorded by a delivery of message `p`.
  ghost predicate Parent(hash: Hash, b: Broker, p: int, i: int) {
    && IsEvent(b, p) && IsEvent(b, i) && p < i
    && b.log[p].dl.eventType == b.log[i].dl.eventType
    && b.log[p].dl.policyName == b.log[i].dl.policyName
    && b.log[p].dl.payload == b.log[i].dl.payload
    && b.log[p].dl.timestamp == b.log[i].dl.timestamp
    && b.log[i].dl.retryCount == b.log[p].dl.retryCount + 1
    && b.log[p].dl.policyVersion <= b.log[i].dl.policyVersion
  }

  ghost predicate HasParent(hash: Hash, b: Broker, i: int) {
    exists p :: Parent(hash, b, p, i)
  }

  ghost predicate HasId(hash: Hash, b: Broker, i: int, id: DlqId) {
    IsEvent(b, i) && IdOf(hash, b.log[i].dl) == id
  }

  ghost predicate Logged(hash: Hash, b: Broker, id: DlqId) {
    id.retryCount >= 1 && exists i :: HasId(hash, b, i, id)
  }

  // Message `i` was logged before its payload went into `m`.
  ghost predicate Yields(hash: Hash, b: Broker, i: int, m: SourceMessage) {
    && IsEvent(b, i) && i < m.at && !b.log[i].dl.eventType.OtherType?
    && m.id == Lineage(hash, b.log[i].dl) && m.payload == b.log[i].dl.payload
  }

  ghost predicate FromLog(hash: Hash, b: Broker, m: SourceMessage) {
    exists i :: Yields(hash, b, i, m)
  }

  // Retries are numbered from one; message 0 of a lineage comes from ingest.
  predicate IsRetry(b: Broker, i: int) {
    IsEvent(b, i) && b.log[i].dl.retryCount >= 1
  }

  ghost predicate IdsMatchLog(hash: Hash, b: Broker) {
    && (forall i :: IsRetry(b, i) ==> IdOf(hash, b.log[i].dl) in b.dlqIds)
    && (forall id {:trigger Logged(hash, b, id)} :: id in b.dlqIds ==> Logged(hash, b, id))
  }

  ghost predicate OnePerRetryCount(hash: Hash, b: Broker) {
    forall i, j | IsRetry(b, i) && IsRetry(b, j) ::
      IdOf(hash, b.log[i].dl) == IdOf(hash, b.log[j].dl) ==> i == j
  }

  ghost predicate Descended(hash: Hash, b: Broker) {
    forall i {:trigger HasParent(hash, b, i)} :: IsRetry(b, i) ==> HasParent(hash, b, i)
  }

  ghost predicate SourceFromLog(hash: Hash, b: Broker) {
    forall m {:trigger FromLog(hash, b, m)} :: m in b.source ==> FromLog(hash, b, m)
  }

  ghost predicate SourceIdsDistinct(b: Broker) {
    forall k, l :: 0 <= k < l < |b.source| ==> b.source[k].id != b.source[l].id
  }

  ghost predicate AllCovered(hash: Hash, b: Broker) {
    forall i {:trigger Covered(hash, b, i)} :: IsEvent(b, i) ==> Covered(hash, b, i)
  }

  ghost predicate BrokerInv(hash: Hash, b: Broker) {
    && (forall n :: n in b.pending ==> n < |b.log|)
    && (forall n :: n in b.acks ==> n < |b.log| && Justified(hash, b, n))
    && IdsMatchLog(hash, b)
    && OnePerRetryCount(hash, b)
    && Descended(hash, b)
    && SourceFromLog(hash, b)
    && SourceIdsDistinct(b)
    && AllCovered(hash, b)
  }

  // The event a delivery works on is the stored one, its version only raised.
  ghost predicate Works(stored: DeadLetter, dl: DeadLetter) {
    dl == stored.(policyVersion := dl.policyVersion) && stored.policyVersion <= dl.policyVersion
  }

  ghost predicate DeliveryInv(hash: Hash, b: Broker, d: Delivery) {
    && d.n < |b.log|
    && match d.pc
       case Republishing(dl, _) => IsEvent(b, d.n) && Works(b.log[d.n].dl, dl) && !dl.eventType.OtherType?
       case Recording(dl, _) => IsEvent(b, d.n) && Works(b.log[d.n].dl, dl)
       case Acking => Justified(hash, b, d.n)
       case _ => true
  }

  ghost predicate Inv(hash: Hash, s: State) {
    && BrokerInv(hash, s.broker)
    && (forall d :: d in s.deliveries ==> DeliveryInv(hash, s.broker, s.deliveries[d]))
    && FlightInv(hash, s.broker, s.flight)
  }

  ghost predicate FlightInv(hash: Hash, b: Broker, flight: seq<Delivery>) {
    forall k :: 0 <= k < |flight| ==> DeliveryInv(hash, b, flight[k]) && Asking(flight[k].pc)
  }

  // The later broker remembers everything the earlier one did.
  ghost predicate Grows(b: Broker, b': Broker) {
    && |b.log| <= |b'.log| && b'.log[..|b.log|] == b.log
    && b.dlqIds <= b'.dlqIds
    && (forall id :: Accepted(b, id) ==> Accepted(b', id))
  }

  lemma DeliveryStable(hash: Hash, b: Broker, b': Broker, d: Delivery)
    requires Grows(b, b') && DeliveryInv(hash, b, d)
    ensures DeliveryInv(hash, b', d)
  {
    assert b'.log[d.n] == b.log[d.n];
  }

  lemma CoverStable(hash: Hash, b: Broker, b': Broker, i: int)
    requires Grows(b, b') && b.pending.Keys <= b'.pending.Keys
    requires IsEvent(b, i) && Covered(hash, b, i)
    ensures IsEvent(b', i) && Covered(hash, b', i)
  {
    assert b'.log[i] == b.log[i];
    if !Accepted(b, Lineage(hash, b.log[i].dl)) {
      var j :| Carries(hash, b, i, j);
      assert b'.log[j] == b.log[j];
      assert Carries(hash, b', i, j);
    }
  }

  lemma ParentStable(hash: Hash, b: Broker, b': Broker, i: int)
    requires Grows(b, b') && IsRetry(b, i) && HasParent(hash, b, i)
    ensures HasParent(hash, b', i)
  {
    var p :| Parent(hash, b, p, i);
    assert b'.log[i] == b.log[i] && b'.log[p] == b.log[p];
    assert Parent(hash, b', p, i);
  }

  lemma LoggedStable(hash: Hash, b: Broker, b': Broker, id: DlqId)
    requires Grows(b, b') && Logged(hash, b, id)
    ensures Logged(hash, b', id)
  {
    var i :| HasId(hash, b, i, id);
    assert b'.log[i] == b.log[i];
    assert HasId(hash, b', i, id);
  }

  lemma SourcedStable(hash: Hash, b: Broker, b': Broker, m: SourceMessage)
    requires Grows(b, b') && FromLog(hash, b, m)
    ensures FromLog(hash, b', m)
  {
    var i :| Yields(hash, b, i, m);
    assert b'.log[i] == b.log[i];
    assert Yields(hash, b', i, m);
  }

  // Whatever held of a known message, ID or payload still does once the broker
  // has grown.
  lemma ElementsStable(hash: Hash, b: Broker, b': Broker)
    requires BrokerInv(hash, b) && Grows(b, b')
    ensures forall i :: IsEvent(b, i) ==> IsEvent(b', i) && b'.log[i] == b.log[i]
    ensures forall i {:trigger HasParent(hash, b', i)} :: IsRetry(b, i) ==> HasParent(hash, b', i)
    ensures forall id {:trigger Logged(hash, b', id)} :: id in b.dlqIds ==> Logged(hash, b', id)
    ensures forall m {:trigger FromLog(hash, b', m)} :: m in b.source ==> FromLog(hash, b', m)
    ensures forall n :: n in b.acks ==> n < |b'.log| && Justified(hash, b', n)
  {
    assert forall i :: 0 <= i < |b.log| ==> b'.log[i] == b'.log[..|b.log|][i] == b.log[i];
    forall i | IsRetry(b, i) ensures HasParent(hash, b', i) {
      assert HasParent(hash, b, i);
      ParentStable(hash, b, b', i);
    }
    forall id | id in b.dlqIds ensures Logged(hash, b', id) {
      assert Logged(hash, b, id);
      LoggedStable(hash, b, b', id);
    }
    forall m | m in b.source ensures FromLog(hash, b', m) {
      assert FromLog(hash, b, m);
      SourcedStable(hash, b, b', m);
    }
  }

  lemma CoversStable(hash: Hash, b: Broker, b': Broker)
    requires BrokerInv(hash, b) && Grows(b, b') && b.pending.Keys <= b'.pending.Keys
    requires forall i :: IsEvent(b, i) ==> IsEvent(b', i)
    ensures forall i {:trigger Covered(hash, b', i)} :: IsEvent(b, i) ==> Covered(hash, b', i)
  {
    forall i | IsEvent(b, i) ensures Covered(hash, b', i) {
      assert Covered(hash, b, i);
      CoverStable(hash, b, b', i);
    }
  }

  // Ingest stores a new event, or something that does not parse arrives.
  lemma AppendKeeps(hash: Hash, b: Broker, msg: Message, clock: int)
    requires BrokerInv(hash, b)
    requires msg.Parsed? ==> msg.dl.retryCount == 0
    ensures Grows(b, Append(b, msg, clock)) && BrokerInv(hash, Append(b, msg, clock))
  {
    var b' := Append(b, msg, clock);
    assert forall id :: Accepted(b, id) == Accepted(b', id);
    ElementsStable(hash, b, b');
    CoversStable(hash, b, b');
    assert forall i :: IsRetry(b', i) ==> IsRetry(b, i);
    if msg.Parsed? {
      assert Carries(hash, b', |b.log|, |b.log|);
    }
  }

  // Recording a retry that failed, whether or not it was recorded before.
  lemma RecordKeeps(hash: Hash, schedule: Schedule, b: Broker, n: nat, dl: DeadLetter, now: int, clock: int)
    requires BrokerInv(hash, b) && IsEvent(b, n) && Works(b.log[n].dl, dl)
    ensures var b' := Perform(hash, schedule, b, n, Recording(dl, now), clock);
            Grows(b, b') && BrokerInv(hash, b') && Justified(hash, b', n)
  {
    var next := Successor(schedule, dl, now);
    var id := IdOf(hash, next);
    if id !in b.dlqIds {
      NewRecordKeeps(hash, b, n, next, clock);
    }
  }

  lemma NewRecordKeeps(hash: Hash, b: Broker, n: nat, next: DeadLetter, clock: int)
    requires BrokerInv(hash, b) && IsEvent(b, n) && IdOf(hash, next) !in b.dlqIds
    requires Works(b.log[n].dl.(retryCount := next.retryCount, lastRetryAt := next.lastRetryAt,
                                nextRetryAfter := next.nextRetryAfter), next)
    requires next.retryCount == b.log[n].dl.retryCount + 1
    ensures var b' := StoreDlq(b, IdOf(hash, next), next, clock);
            Grows(b, b') && BrokerInv(hash, b') && Justified(hash, b', n)
  {
    var id := IdOf(hash, next);
    var b' := StoreDlq(b, id, next, clock);
    assert forall x :: Accepted(b, x) == Accepted(b', x);
    ElementsStable(hash, b, b');
    CoversStable(hash, b, b');
    assert forall i :: IsRetry(b', i) ==> IsRetry(b, i) || i == |b.log|;
    assert Carries(hash, b', |b.log|, |b.log|);
    assert Parent(hash, b', n, |b.log|);
    assert HasId(hash, b', |b.log|, id);
  }

  // Republishing to the source stream, deduplicated or not.
  lemma RepublishKeeps(hash: Hash, b: Broker, n: nat, dl: DeadLetter)
    requires BrokerInv(hash, b) && IsEvent(b, n) && Works(b.log[n].dl, dl) && !dl.eventType.OtherType?
    ensures var b' := StoreSource(b, Lineage(hash, dl), dl.payload);
            Grows(b, b') && BrokerInv(hash, b') && Justified(hash, b', n)
  {
    var id := Lineage(hash, dl);
    var b' := StoreSource(b, id, dl.payload);
    if !Accepted(b, id) {
      assert b'.source[|b.source|].id == id;
      forall x | Accepted(b, x) ensures Accepted(b', x) {
        var k :| 0 <= k < |b.source| && b.source[k].id == x;
        assert b'.source[k].id == x;
      }
      ElementsStable(hash, b, b');
      CoversStable(hash, b, b');
      assert Yields(hash, b', n, SourceMessage(id, dl.payload, |b.log|));
      assert forall i :: IsRetry(b', i) == IsRetry(b, i);
    }
  }

  // Changing when messages are visible, and letting acks set off.
  lemma VisibilityKeeps(hash: Hash, b: Broker, b': Broker)
    requires BrokerInv(hash, b)
    requires b' == b.(pending := b'.pending, acks := b'.acks) && b'.pending.Keys == b.pending.Keys
    requires forall n :: n in b'.acks ==> n in b.acks || (n < |b.log| && Justified(hash, b, n))
    ensures Grows(b, b') && BrokerInv(hash, b')
  {
    assert forall x :: Accepted(b, x) == Accepted(b', x);
    ElementsStable(hash, b, b');
    CoversStable(hash, b, b');
    assert forall i :: IsRetry(b', i) == IsRetry(b, i);
    assert forall n :: Justified(hash, b, n) ==> Justified(hash, b', n);
  }

  // What holds of the log, the IDs, the acks and the source does not depend on
  // what is still queued.
  lemma QueueAside(hash: Hash, b: Broker, b': Broker)
    requires BrokerInv(hash, b) && b' == b.(pending := b'.pending)
    ensures IdsMatchLog(hash, b') && OnePerRetryCount(hash, b') && Descended(hash, b')
    ensures SourceFromLog(hash, b') && SourceIdsDistinct(b')
    ensures forall n :: n in b'.acks ==> n < |b'.log| && Justified(hash, b', n)
    ensures Grows(b, b')
  {
    assert forall x :: Accepted(b, x) == Accepted(b', x);
    ElementsStable(hash, b, b');
    assert forall i :: IsRetry(b', i) == IsRetry(b, i);
  }

  // An ack removes its message; whatever that message carried is carried by
  // the source stream or by a later retry.
  lemma SettleKeeps(hash: Hash, b: Broker, n: nat)
    requires BrokerInv(hash, b) && n in b.acks
    ensures Grows(b, Settle(b, n)) && BrokerInv(hash, Settle(b, n))
  {
    var b' := Settle(b, n);
    QueueAside(hash, b, b');
    forall i | IsEvent(b', i) ensures Covered(hash, b', i) {
      assert IsEvent(b, i);
      SettleCovers(hash, b, n, i);
    }
  }

  lemma SettleCovers(hash: Hash, b: Broker, n: nat, i: int)
    requires BrokerInv(hash, b) && n in b.acks && IsEvent(b, i)
    ensures Covered(hash, Settle(b, n), i)
  {
    var b' := Settle(b, n);
    assert forall x :: Accepted(b, x) == Accepted(b', x);
    assert Covered(hash, b, i);
    if !Accepted(b, Lineage(hash, b.log[i].dl)) {
      var j :| Carries(hash, b, i, j);
      if j == n {
        var dl := b.log[n].dl;
        var id := DlqId(Lineage(hash, dl), dl.retryCount + 1);
        assert Justified(hash, b, n);
        assert Logged(hash, b, id);
        var k :| HasId(hash, b, k, id);
        assert Covered(hash, b, k);
        var l :| Carries(hash, b, k, l);
        assert Carries(hash, b', i, l);
      } else {
        assert Carries(hash, b', i, j);
      }
    }
  }

  lemma DeliveriesKeep(hash: Hash, s: State, b': Broker)
    requires Inv(hash, s) && Grows(s.broker, b')
    ensures forall d :: d in s.deliveries ==> DeliveryInv(hash, b', s.deliveries[d])
    ensures FlightInv(hash, b', s.flight)
  {
    forall k | 0 <= k < |s.flight| ensures DeliveryInv(hash, b', s.flight[k]) {
      DeliveryStable(hash, s.broker, b', s.flight[k]);
    }
    forall d | d in s.deliveries ensures DeliveryInv(hash, b', s.deliveries[d]) {
      DeliveryStable(hash, s.broker, b', s.deliveries[d]);
    }
  }

  // One answered or unanswered request of one delivery.
  lemma RequestKeeps(env: Env, b: Broker, d: Delivery, clock: int, fate: Fate)
    requires BrokerInv(env.hash, b) && DeliveryInv(env.hash, b, d) && Asking(d.pc)
    ensures var b' := if fate == Late then b else Perform(env.hash, env.setup.schedule, b, d.n, d.pc, clock);
            && Grows(b, b') && BrokerInv(env.hash, b')
            && DeliveryInv(env.hash, b', Delivery(d.n, Advance(d.pc, fate)))
  {
    if fate != Late {
      match d.pc
      case Republishing(dl, now) =>
        RepublishKeeps(env.hash, b, d.n, dl);
        DeliveryStable(env.hash, b, Perform(env.hash, env.setup.schedule, b, d.n, d.pc, clock), d);
      case Recording(dl, now) =>
        RecordKeeps(env.hash, env.setup.schedule, b, d.n, dl, now, clock);
      case Acking =>
        VisibilityKeeps(env.hash, b, b.(acks := b.acks + {d.n}));
      case Naking =>
        VisibilityKeeps(env.hash, b, Delay(b, d.n, clock));
      case Deferring(delay) =>
        VisibilityKeeps(env.hash, b, Delay(b, d.n, clock + delay));
    }
  }

  lemma StepKeeps(env: Env, s: State, step: Step)
    requires Inv(env.hash, s) && Enabled(s, step)
    ensures Inv(env.hash, Execute(env, s, step))
  {
    var s' := Execute(env, s, step);
    match step
    case ArriveDeadLetter(dl) =>
      AppendKeeps(env.hash, s.broker, Parsed(dl), s.clock);
      DeliveriesKeep(env.hash, s, s'.broker);
    case ArriveCorrupt(raw) =>
      AppendKeeps(env.hash, s.broker, Corrupt(raw), s.clock);
      DeliveriesKeep(env.hash, s, s'.broker);
    case Fetch(d, n) =>
      VisibilityKeeps(env.hash, s.broker, s'.broker);
      DeliveriesKeep(env.hash, s, s'.broker);
    case Request(d, fate) =>
      RequestKeeps(env, s.broker, s.deliveries[d], s.clock, fate);
      DeliveriesKeep(env.hash, s, s'.broker);
    case Lands(k) =>
      RequestKeeps(env, s.broker, s.flight[k], s.clock, ReplyLost);
      DeliveriesKeep(env.hash, s, s'.broker);
    case AckArrives(n) =>
      SettleKeeps(env.hash, s.broker, n);
      DeliveriesKeep(env.hash, s, s'.broker);
    case _ =>
  }

  lemma {:induction false} RunKeeps(env: Env, s: State, run: seq<Step>)
    requires Inv(env.hash, s) && Possible(env, s, run)
    ensures Inv(env.hash, After(env, s, run))
    decreases |run|
  {
    if run != [] {
      StepKeeps(env, s, run[0]);
      RunKeeps(env, Execute(env, s, run[0]), run[1..]);
    }
  }

  // ---------------------------------------------------------------------
  // What holds of every run
  // ---------------------------------------------------------------------

  // Some run leads from one state to the other.
  ghost predicate Leads(env: Env, s: State, s': State) {
    exists run :: Possible(env, s, run) && s' == After(env, s, run)
  }

  ghost predicate Reachable(env: Env, s: State) {
    Leads(env, INIT, s)
  }

  lemma StepLeads(env: Env, s: State, step: Step)
    requires Enabled(s, step)
    ensures Leads(env, s, Execute(env, s, step))
  {
    var run := [step];
    var s' := Execute(env, s, step);
    assert run[1..] == [] && Possible(env, s', run[1..]) && After(env, s', run[1..]) == s';
    assert Possible(env, s, run) && After(env, s, run) == s';
  }

  lemma LeadsOn(env: Env, s: State, s1: State, s2: State)
    requires Leads(env, s, s1) && Leads(env, s1, s2)
    ensures Leads(env, s, s2)
  {
    var first :| Possible(env, s, first) && s1 == After(env, s, first);
    var second :| Possible(env, s1, second) && s2 == After(env, s1, second);
    PossibleConcat(env, s, first, second);
    assert Possible(env, s, first + second);
  }

  lemma ReachableInv(env: Env, s: State)
    requires Reachable(env, s)
    ensures Inv(env.hash, s)
  {
    var run :| Possible(env, INIT, run) && s == After(env, INIT, run);
    RunKeeps(env, INIT, run);
  }

  // No failed attempt is recorded twice: at most one message was ever stored
  // for a lineage and a retry count of at least one.
  lemma RecordedOnce(env: Env, s: State, i: nat, j: nat)
    requires Reachable(env, s) && IsRetry(s.broker, i) && IsRetry(s.broker, j)
    requires IdOf(env.hash, s.broker.log[i].dl) == IdOf(env.hash, s.broker.log[j].dl)
    ensures i == j
  {
    ReachableInv(env, s);
  }

  // No event is put back on its source stream twice.
  lemma RepublishedOnce(env: Env, s: State, k: nat, l: nat)
    requires Reachable(env, s) && k < |s.broker.source| && l < |s.broker.source|
    requires s.broker.source[k].id == s.broker.source[l].id
    ensures k == l
  {
    ReachableInv(env, s);
  }

  // Along a lineage later retries carry later sequence numbers and a policy
  // version that is no smaller.
  lemma LineageAdvances(env: Env, s: State, i: nat, j: nat)
    requires Reachable(env, s) && IsRetry(s.broker, i) && IsRetry(s.broker, j)
    requires Lineage(env.hash, s.broker.log[i].dl) == Lineage(env.hash, s.broker.log[j].dl)
    requires s.broker.log[i].dl.retryCount < s.broker.log[j].dl.retryCount
    ensures i < j && s.broker.log[i].dl.policyVersion <= s.broker.log[j].dl.policyVersion
    decreases j
  {
    ReachableInv(env, s);
    assert HasParent(env.hash, s.broker, j);
    var p :| Parent(env.hash, s.broker, p, j);
    if s.broker.log[p].dl.retryCount > s.broker.log[i].dl.retryCount {
      LineageAdvances(env, s, i, p);
    } else {
      RecordedOnce(env, s, i, p);
    }
  }

  // Every queued event is a retry of one that ingest stored, with its payload.
  lemma {:induction false} Origin(env: Env, s: State, i: nat) returns (o: nat)
    requires Inv(env.hash, s) && IsEvent(s.broker, i)
    ensures o <= i && IsEvent(s.broker, o) && (s.broker.log[i].dl.retryCount == 0 ==> o == i)
    ensures var old_, new_ := s.broker.log[o].dl, s.broker.log[i].dl;
            && old_.retryCount == 0 && old_.policyVersion <= new_.policyVersion
            && new_ == old_.(policyVersion := new_.policyVersion, retryCount := new_.retryCount, resource := new_.resource,
                             lastRetryAt := new_.lastRetryAt, nextRetryAfter := new_.nextRetryAfter)
    decreases i
  {
    if s.broker.log[i].dl.retryCount == 0 {
      o := i;
    } else {
      assert IsRetry(s.broker, i) && HasParent(env.hash, s.broker, i);
      var p :| Parent(env.hash, s.broker, p, i);
      o := Origin(env, s, p);
    }
  }

  predicate SameEvent(a: DeadLetter, b: DeadLetter) {
    a.eventType == b.eventType && a.policyName == b.policyName && a.payload == b.payload && a.timestamp == b.timestamp
  }

  // Event `i` still has a copy in the queue, at its own retry count or later.
  ghost predicate Queued(b: Broker, i: nat)
    requires IsEvent(b, i)
  {
    exists j :: IsEvent(b, j) && j in b.pending && SameEvent(b.log[j].dl, b.log[i].dl)
                && b.log[j].dl.retryCount >= b.log[i].dl.retryCount
  }

  // Message `o` is the one that ingest stored for event `i`.
  ghost predicate StoredFor(b: Broker, o: nat, i: nat)
    requires IsEvent(b, i)
  {
    && IsEvent(b, o) && b.log[o].dl.retryCount == 0 && SameEvent(b.log[o].dl, b.log[i].dl)
    && if b.log[i].dl.retryCount == 0 then o == i else o < i
  }

  // The source stream accepted message `k`, with the very payload of event `i`,
  // after ingest had stored the event.
  ghost predicate PutBackBy(b: Broker, i: nat, k: nat, o: nat)
    requires IsEvent(b, i)
  {
    && k < |b.source| && StoredFor(b, o, i) && o < b.source[k].at
    && b.source[k].payload == b.log[i].dl.payload
    && b.source[k].id.eventType == b.log[i].dl.eventType
    && b.source[k].id.policyName == b.log[i].dl.policyName
    && b.source[k].id.timestamp == b.log[i].dl.timestamp
  }

  ghost predicate PutBack(b: Broker, i: nat)
    requires IsEvent(b, i)
  {
    exists k, o :: PutBackBy(b, i, k, o)
  }

  ghost predicate Kept(b: Broker, i: nat)
    requires IsEvent(b, i)
  {
    Queued(b, i) || PutBack(b, i)
  }

  ghost predicate Safe(b: Broker) {
    forall i {:trigger Kept(b, i)} :: IsEvent(b, i) ==> Kept(b, i)
  }

  // Two dead letters of ingest get in each other's way: they share a lineage,
  // and so one message on the source stream, or one record when there is no
  // stream for them and they differ in their payloads.
  predicate Clash(hash: Hash, x: DeadLetter, y: DeadLetter) {
    Lineage(hash, x) == Lineage(hash, y) && (x.eventType.OtherType? ==> x.payload != y.payload)
  }

  predicate IsArrival(b: Broker, i: int) {
    IsEvent(b, i) && b.log[i].dl.retryCount == 0
  }

  // No two dead letters that ingest stored for the lineage of event `i` clash.
  ghost predicate ClashFree(hash: Hash, b: Broker, i: nat)
    requires IsEvent(b, i)
  {
    forall c, d | IsArrival(b, c) && IsArrival(b, d) && c < d ::
      Lineage(hash, b.log[c].dl) == Lineage(hash, b.log[i].dl) ==> !Clash(hash, b.log[c].dl, b.log[d].dl)
  }

  // No dead letter is lost: in every run, each one whose lineage is free of
  // clashes still has a copy in the queue or has had its payload accepted by
  // the source stream since ingest stored it.
  lemma NoDeadLetterLost(env: Env, s: State, i: nat)
    requires Reachable(env, s) && IsEvent(s.broker, i) && ClashFree(env.hash, s.broker, i)
    ensures Kept(s.broker, i)
  {
    var b := s.broker;
    ReachableInv(env, s);
    assert Covered(env.hash, b, i);
    var o := Origin(env, s, i);
    assert IsArrival(b, o) && StoredFor(b, o, i);
    if Accepted(b, Lineage(env.hash, b.log[i].dl)) {
      var k: nat :| k < |b.source| && b.source[k].id == Lineage(env.hash, b.log[i].dl);
      assert FromLog(env.hash, b, b.source[k]);
      var x :| Yields(env.hash, b, x, b.source[k]);
      var p := Origin(env, s, x);
      assert IsArrival(b, p) && p == o;
      assert PutBackBy(b, i, k, o);
    } else {
      var j :| Carries(env.hash, b, i, j);
      var p := Origin(env, s, j);
      assert IsArrival(b, p);
    }
  }

  // ---------------------------------------------------------------------
  // Exactly which dead letters are safe from loss
  // ---------------------------------------------------------------------

  predicate Fresh(dls: seq<DeadLetter>) {
    forall a :: 0 <= a < |dls| ==> dls[a].retryCount == 0
  }

  // The dead letters of ingest are `dls` in this order, logged at `at`.
  ghost predicate Ingested(b: Broker, dls: seq<DeadLetter>, at: seq<nat>) {
    && |at| == |dls| && Fresh(dls)
    && (forall x :: 0 <= x < |at| ==> at[x] < |b.log| && b.log[at[x]] == Parsed(dls[x]))
    && (forall x, y :: 0 <= x < y < |at| ==> at[x] < at[y])
    && (forall i :: IsArrival(b, i) ==> i in at)
  }

  ghost predicate AlwaysSafe(env: Env, dls: seq<DeadLetter>) {
    forall s, at :: Reachable(env, s) && Ingested(s.broker, dls, at) ==> Safe(s.broker)
  }

  predicate ClashAt(hash: Hash, dls: seq<DeadLetter>, x: int, y: int) {
    0 <= x < y < |dls| && Clash(hash, dls[x], dls[y])
  }

  ghost predicate Clashing(hash: Hash, dls: seq<DeadLetter>) {
    exists x, y :: ClashAt(hash, dls, x, y)
  }

  // Whatever dead letters ingest stores, no run loses one of them exactly when
  // no two of them clash.
  lemma SafeIffNoClash(env: Env, dls: seq<DeadLetter>)
    requires Fresh(dls)
    ensures AlwaysSafe(env, dls) <==> !Clashing(env.hash, dls)
  {
    if Clashing(env.hash, dls) {
      var x, y :| ClashAt(env.hash, dls, x, y);
      var run, s, at := HandledOneByOne(env, dls);
      ClashLoses(env, s.broker, dls, at, x, y);
      assert Reachable(env, s);
    } else {
      forall s, at | Reachable(env, s) && Ingested(s.broker, dls, at) ensures Safe(s.broker) {
        forall i | IsEvent(s.broker, i) ensures Kept(s.broker, i) {
          NoClashAt(env.hash, s.broker, dls, at, i);
          NoDeadLetterLost(env, s, i);
        }
      }
    }
  }

  lemma NoClashAt(hash: Hash, b: Broker, dls: seq<DeadLetter>, at: seq<nat>, i: nat)
    requires Ingested(b, dls, at) && !Clashing(hash, dls) && IsEvent(b, i)
    ensures ClashFree(hash, b, i)
  {
    forall c, d | IsArrival(b, c) && IsArrival(b, d) && c < d ensures !Clash(hash, b.log[c].dl, b.log[d].dl) {
      var x :| 0 <= x < |at| && at[x] == c;
      var y :| 0 <= y < |at| && at[y] == d;
      assert !(y < x) && x != y;
      assert !ClashAt(hash, dls, x, y);
    }
  }

  ghost predicate Injective(hash: Hash) {
    forall p, q :: hash(p) == hash(q) ==> p == q
  }

  ghost predicate Unrepeated(dls: seq<DeadLetter>) {
    forall x, y :: 0 <= x < y < |dls| ==> !SameEvent(dls[x], dls[y])
  }

  // As long as ingest never stores the same event twice, nothing is ever lost
  // exactly when the payload hash is injective.
  lemma SafeIffHashInjective(env: Env)
    ensures (forall dls :: Fresh(dls) && Unrepeated(dls) ==> AlwaysSafe(env, dls)) <==> Injective(env.hash)
  {
    if Injective(env.hash) {
      forall dls | Fresh(dls) && Unrepeated(dls) ensures AlwaysSafe(env, dls) {
        SafeIffNoClash(env, dls);
      }
    } else {
      var p, q :| env.hash(p) == env.hash(q) && p != q;
      CollisionLosesEvent(env, p, q);
      var dls := [FreshEvent(p), FreshEvent(q)];
      assert Fresh(dls) && Unrepeated(dls) && !AlwaysSafe(env, dls);
    }
  }

  function FreshEvent(payload: string): DeadLetter {
    DeadLetter(K8sEvent, payload, "policy", 0, 0, None, 0, None, None)
  }

  // Two events with payloads that hash alike: some run loses one of them.
  lemma CollisionLosesEvent(env: Env, p: string, q: string)
    requires env.hash(p) == env.hash(q)
    ensures !AlwaysSafe(env, [FreshEvent(p), FreshEvent(q)])
  {
    var dls := [FreshEvent(p), FreshEvent(q)];
    assert ClashAt(env.hash, dls, 0, 1);
    SafeIffNoClash(env, dls);
  }

  // So does, with any hash, an event that fails ingest twice within a second:
  // the retry of the second dead letter is taken for that of the first.
  lemma RepeatLosesEvent(env: Env, payload: string) returns (s: State)
    ensures Reachable(env, s)
    ensures s.broker.log == [Parsed(FreshEvent(payload)), Parsed(FreshEvent(payload))] && s.broker.pending == map[]
    ensures forall k :: 0 <= k < |s.broker.source| ==> s.broker.source[k].at <= 1
    ensures !Kept(s.broker, 1)
  {
    var dl := FreshEvent(payload);
    var run1, s1 := HandledAlone(env, INIT, dl);
    var run2, s2 := HandledAlone(env, s1, dl);
    s := s2;
    PossibleConcat(env, INIT, run1, run2);
    assert Possible(env, INIT, run1 + run2) && s == After(env, INIT, run1 + run2);
    assert s1.broker.source == [SourceMessage(Lineage(env.hash, dl), payload, 1)];
    assert s1.broker.source[0].id == Lineage(env.hash, dl);
    assert s2.broker.source == s1.broker.source;
  }

  // ---------------------------------------------------------------------
  // Runs that handle one dead letter after the other
  // ---------------------------------------------------------------------

  const ANY_POLICY := Some(Filter("", 0))

  const OBSERVED_FRESH := Observed(0, 0, 0, 0, true)

  // Retrying one event from arrival to removal, all requests delivered.
  function TakeUp(dl: DeadLetter, n: nat): seq<Step> {
    [ArriveDeadLetter(dl), Fetch(n, n), Judge(n, ANY_POLICY, OBSERVED_FRESH)]
  }

  function Finish(n: nat): seq<Step> {
    [Request(n, Delivered), Request(n, Delivered), AckArrives(n)]
  }

  // Between retries no handled message is left under way.
  predicate Quiet(s: State) {
    && s.generation == map[] && s.clock == 0
    && (forall d :: d in s.deliveries ==> d < |s.broker.log|)
    && (forall m :: m in s.broker.pending ==> m < |s.broker.log|)
  }

  // The broker after a dead letter has arrived and been retried.
  function AfterAlone(env: Env, b: Broker, dl: DeadLetter): Broker {
    var n := |b.log|;
    var b1 := Append(b, Parsed(dl), ACK_WAIT);
    var b2 := Perform(env.hash, env.setup.schedule, b1, n, Attempt(env.setup, dl, OBSERVED_FRESH), 0);
    Settle(Perform(env.hash, env.setup.schedule, b2, n, Acking, 0), n)
  }

  lemma HandledAlone(env: Env, s: State, dl: DeadLetter) returns (run: seq<Step>, s': State)
    requires Quiet(s) && dl.retryCount == 0
    ensures Possible(env, s, run) && s' == After(env, s, run) && Quiet(s')
    ensures s'.broker == AfterAlone(env, s.broker, dl)
  {
    var n := |s.broker.log|;
    var s3 := TakenUp(env, s, dl);
    s' := Finished(env, s3, dl, n);
    run := TakeUp(dl, n) + Finish(n);
    PossibleConcat(env, s, TakeUp(dl, n), Finish(n));
  }

  lemma TakenUp(env: Env, s: State, dl: DeadLetter) returns (s': State)
    requires Quiet(s) && dl.retryCount == 0
    ensures var n := |s.broker.log|;
      && Possible(env, s, TakeUp(dl, n)) && s' == After(env, s, TakeUp(dl, n))
      && s' == s.(broker := Append(s.broker, Parsed(dl), ACK_WAIT),
                  deliveries := s.deliveries[n := Delivery(n, Attempt(env.setup, dl, OBSERVED_FRESH))])
  {
    var n := |s.broker.log|;
    var s1 := Execute(env, s, ArriveDeadLetter(dl));
    var s2 := Execute(env, s1, Fetch(n, n));
    s' := Execute(env, s2, Judge(n, ANY_POLICY, OBSERVED_FRESH));
    assert s2.broker == Append(s.broker, Parsed(dl), ACK_WAIT);
    ThreeSteps(env, s, TakeUp(dl, n));
  }

  lemma Finished(env: Env, s: State, dl: DeadLetter, n: nat) returns (s': State)
    requires s.generation == map[] && s.clock == 0 && n < |s.broker.log|
    requires n in s.deliveries && s.deliveries[n] == Delivery(n, Attempt(env.setup, dl, OBSERVED_FRESH))
    requires forall d :: d in s.deliveries ==> d < |s.broker.log|
    requires forall m :: m in s.broker.pending ==> m < |s.broker.log|
    ensures Possible(env, s, Finish(n)) && s' == After(env, s, Finish(n)) && Quiet(s')
    ensures var b2 := Perform(env.hash, env.setup.schedule, s.broker, n, Attempt(env.setup, dl, OBSERVED_FRESH), 0);
            s'.broker == Settle(Perform(env.hash, env.setup.schedule, b2, n, Acking, 0), n)
  {
    var s1 := Execute(env, s, Request(n, Delivered));
    assert s1.deliveries[n] == Delivery(n, Acking);
    var s2 := Execute(env, s1, Request(n, Delivered));
    s' := Execute(env, s2, AckArrives(n));
    ThreeSteps(env, s, Finish(n));
  }

  ghost predicate FirstOf(hash: Hash, dls: seq<DeadLetter>, a: nat)
    requires a < |dls|
  {
    forall c :: 0 <= c < a ==> Lineage(hash, dls[c]) != Lineage(hash, dls[a])
  }

  // Message `k` of the source stream is the first dead letter of its lineage.
  ghost predicate SentFirst(hash: Hash, m: SourceMessage, dls: seq<DeadLetter>, at: seq<nat>, a: nat)
    requires |at| == |dls|
  {
    && a < |dls| && FirstOf(hash, dls, a) && !dls[a].eventType.OtherType?
    && m == SourceMessage(Lineage(hash, dls[a]), dls[a].payload, at[a] + 1)
  }

  // What is queued records the first dead letter of a lineage without a stream.
  ghost predicate RecordsFirst(hash: Hash, b: Broker, j: nat, dls: seq<DeadLetter>, a: nat) {
    && a < |dls| && FirstOf(hash, dls, a) && dls[a].eventType.OtherType?
    && IsEvent(b, j) && SameEvent(b.log[j].dl, dls[a])
  }

  ghost predicate Sent(hash: Hash, m: SourceMessage, dls: seq<DeadLetter>, at: seq<nat>)
    requires |at| == |dls|
  {
    exists a :: SentFirst(hash, m, dls, at, a)
  }

  ghost predicate Records(hash: Hash, b: Broker, j: nat, dls: seq<DeadLetter>) {
    exists a :: RecordsFirst(hash, b, j, dls, a)
  }

  ghost predicate TakenCare(hash: Hash, b: Broker, dl: DeadLetter) {
    if dl.eventType.OtherType? then DlqId(Lineage(hash, dl), 1) in b.dlqIds else Accepted(b, Lineage(hash, dl))
  }

  // Each dead letter was handled alone.
  ghost predicate OneByOne(hash: Hash, b: Broker, dls: seq<DeadLetter>, at: seq<nat>) {
    && Ingested(b, dls, at)
    && (forall k :: 0 <= k < |b.source| ==> Sent(hash, b.source[k], dls, at))
    && (forall j {:trigger Records(hash, b, j, dls)} :: j in b.pending ==> Records(hash, b, j, dls))
    && (forall a :: 0 <= a < |dls| ==> TakenCare(hash, b, dls[a]))
  }

  lemma {:induction false} HandledOneByOne(env: Env, dls: seq<DeadLetter>) returns (run: seq<Step>, s: State, at: seq<nat>)
    requires Fresh(dls)
    ensures Possible(env, INIT, run) && s == After(env, INIT, run) && Quiet(s)
    ensures OneByOne(env.hash, s.broker, dls, at)
  {
    if dls == [] {
      run, s, at := [], INIT, [];
    } else {
      var rest, dl := dls[..|dls| - 1], dls[|dls| - 1];
      var run1, s1, at1 := HandledOneByOne(env, rest);
      var run2, s2 := OneMore(env, run1, s1, rest, at1, dl);
      run, s, at := run2, s2, at1 + [|s1.broker.log|];
      assert rest + [dl] == dls;
    }
  }

  lemma OneMore(env: Env, run: seq<Step>, s: State, dls: seq<DeadLetter>, at: seq<nat>, dl: DeadLetter)
    returns (run': seq<Step>, s': State)
    requires Possible(env, INIT, run) && s == After(env, INIT, run) && Quiet(s) && dl.retryCount == 0
    requires OneByOne(env.hash, s.broker, dls, at)
    ensures Possible(env, INIT, run') && s' == After(env, INIT, run') && Quiet(s')
    ensures OneByOne(env.hash, s'.broker, dls + [dl], at + [|s.broker.log|])
  {
    var more;
    more, s' := HandledAlone(env, s, dl);
    PossibleConcat(env, INIT, run, more);
    run' := run + more;
    NextOneByOne(env, s.broker, dls, at, dl);
  }

  // Broker `b'` is `b` after `dl` was handled alone.
  ghost predicate Adds(hash: Hash, b: Broker, b': Broker, dl: DeadLetter) {
    var n := |b.log|;
    && n < |b'.log| <= n + 2 && b'.log[..n] == b.log && b'.log[n] == Parsed(dl)
    && (|b'.log| == n + 2 ==> IsEvent(b', n + 1) && SameEvent(b'.log[n + 1].dl, dl) && b'.log[n + 1].dl.retryCount == 1
                              && dl.eventType.OtherType? && !TakenCare(hash, b, dl))
    && (forall m :: m in b'.pending ==> m in b.pending || (m == n + 1 && |b'.log| == n + 2))
    && b.dlqIds <= b'.dlqIds && TakenCare(hash, b', dl)
    && (b'.source == b.source
        || (!dl.eventType.OtherType? && !TakenCare(hash, b, dl)
            && b'.source == b.source + [SourceMessage(Lineage(hash, dl), dl.payload, n + 1)]))
  }

  lemma NextOneByOne(env: Env, b: Broker, dls: seq<DeadLetter>, at: seq<nat>, dl: DeadLetter)
    requires OneByOne(env.hash, b, dls, at) && dl.retryCount == 0 && forall m :: m in b.pending ==> m < |b.log|
    ensures OneByOne(env.hash, AfterAlone(env, b, dl), dls + [dl], at + [|b.log|])
  {
    var b' := AfterAlone(env, b, dl);
    AloneAdds(env, b, dl);
    NextIngested(env.hash, b, b', dls, at, dl);
    FirstUnlessCared(env.hash, b, dls, dl);
    NextSources(env.hash, b, b', dls, at, dl);
    NextPending(env.hash, b, b', dls, dl);
    forall a | 0 <= a < |dls + [dl]| ensures TakenCare(env.hash, b', (dls + [dl])[a]) {
      if a < |dls| {
        assert TakenCare(env.hash, b, dls[a]);
        CaredStill(env.hash, b, b', dl, dls[a]);
      }
    }
  }

  lemma NextIngested(hash: Hash, b: Broker, b': Broker, dls: seq<DeadLetter>, at: seq<nat>, dl: DeadLetter)
    requires Ingested(b, dls, at) && Adds(hash, b, b', dl) && dl.retryCount == 0
    ensures Ingested(b', dls + [dl], at + [|b.log|])
  {
    var n, at' := |b.log|, at + [|b.log|];
    assert forall i :: 0 <= i < n ==> b'.log[i] == b.log[i];
    assert at'[|at|] == n;
    forall i | IsArrival(b', i) ensures i in at' {
      if i < n {
        assert IsArrival(b, i) && i in at;
      } else {
        assert i == n;
      }
    }
  }

  lemma FirstUnlessCared(hash: Hash, b: Broker, dls: seq<DeadLetter>, dl: DeadLetter)
    requires forall a :: 0 <= a < |dls| ==> TakenCare(hash, b, dls[a])
    ensures TakenCare(hash, b, dl) || FirstOf(hash, dls + [dl], |dls|)
  {
    assert forall a :: 0 <= a < |dls| && Lineage(hash, dls[a]) == Lineage(hash, dl) ==> TakenCare(hash, b, dls[a]);
  }

  lemma NextSources(hash: Hash, b: Broker, b': Broker, dls: seq<DeadLetter>, at: seq<nat>, dl: DeadLetter)
    requires |at| == |dls| && Adds(hash, b, b', dl) && (TakenCare(hash, b, dl) || FirstOf(hash, dls + [dl], |dls|))
    requires forall k :: 0 <= k < |b.source| ==> Sent(hash, b.source[k], dls, at)
    ensures forall k :: 0 <= k < |b'.source| ==> Sent(hash, b'.source[k], dls + [dl], at + [|b.log|])
  {
    forall k | 0 <= k < |b'.source| ensures Sent(hash, b'.source[k], dls + [dl], at + [|b.log|]) {
      if k < |b.source| {
        assert b'.source[k] == b.source[k];
        SentStill(hash, b.source[k], dls, at, dl, |b.log|);
      } else {
        assert SentFirst(hash, b'.source[k], dls + [dl], at + [|b.log|], |dls|);
      }
    }
  }

  lemma NextPending(hash: Hash, b: Broker, b': Broker, dls: seq<DeadLetter>, dl: DeadLetter)
    requires Adds(hash, b, b', dl) && (TakenCare(hash, b, dl) || FirstOf(hash, dls + [dl], |dls|))
    requires forall j {:trigger Records(hash, b, j, dls)} :: j in b.pending ==> Records(hash, b, j, dls)
    ensures forall j {:trigger Records(hash, b', j, dls + [dl])} :: j in b'.pending ==> Records(hash, b', j, dls + [dl])
  {
    forall j | j in b'.pending ensures Records(hash, b', j, dls + [dl]) {
      if j in b.pending {
        assert Records(hash, b, j, dls);
        RecordsStill(hash, b, b', j, dls, dl);
      } else {
        assert RecordsFirst(hash, b', j, dls + [dl], |dls|);
      }
    }
  }

  lemma CaredStill(hash: Hash, b: Broker, b': Broker, dl: DeadLetter, x: DeadLetter)
    requires Adds(hash, b, b', dl) && TakenCare(hash, b, x)
    ensures TakenCare(hash, b', x)
  {
    if !x.eventType.OtherType? {
      var k :| 0 <= k < |b.source| && b.source[k].id == Lineage(hash, x);
      assert b'.source[k] == b.source[k];
    }
  }

  lemma SentStill(hash: Hash, m: SourceMessage, dls: seq<DeadLetter>, at: seq<nat>, dl: DeadLetter, n: nat)
    requires |at| == |dls| && Sent(hash, m, dls, at)
    ensures Sent(hash, m, dls + [dl], at + [n])
  {
    var a: nat :| SentFirst(hash, m, dls, at, a);
    assert SentFirst(hash, m, dls + [dl], at + [n], a);
  }

  lemma RecordsStill(hash: Hash, b: Broker, b': Broker, j: nat, dls: seq<DeadLetter>, dl: DeadLetter)
    requires Records(hash, b, j, dls) && |b.log| <= |b'.log| && b'.log[..|b.log|] == b.log
    ensures Records(hash, b', j, dls + [dl])
  {
    var a: nat :| RecordsFirst(hash, b, j, dls, a);
    assert b'.log[j] == b.log[j];
    assert RecordsFirst(hash, b', j, dls + [dl], a);
  }

  // What handling one dead letter alone adds to the broker.
  lemma AloneAdds(env: Env, b: Broker, dl: DeadLetter)
    requires dl.retryCount == 0 && forall m :: m in b.pending ==> m < |b.log|
    ensures Adds(env.hash, b, AfterAlone(env, b, dl), dl)
  {
    if !dl.eventType.OtherType? {
      var b' := AfterAlone(env, b, dl);
      assert !Accepted(b, Lineage(env.hash, dl)) ==> b'.source[|b.source|].id == Lineage(env.hash, dl);
    }
  }

  // A clash among dead letters handled one by one loses one of the two.
  lemma ClashLoses(env: Env, b: Broker, dls: seq<DeadLetter>, at: seq<nat>, x: nat, y: nat)
    requires OneByOne(env.hash, b, dls, at) && ClashAt(env.hash, dls, x, y)
    ensures !Safe(b)
  {
    var i, j := at[x], at[y];
    assert IsEvent(b, i) && IsEvent(b, j);
    if Kept(b, i) && Kept(b, j) {
      if dls[x].eventType.OtherType? {
        var a := KeptByRecord(env.hash, b, dls, at, x);
        var c := KeptByRecord(env.hash, b, dls, at, y);
      } else {
        KeptBySource(env.hash, b, dls, at, y);
      }
    }
  }

  lemma KeptByRecord(hash: Hash, b: Broker, dls: seq<DeadLetter>, at: seq<nat>, x: nat) returns (a: nat)
    requires OneByOne(hash, b, dls, at) && x < |dls| && dls[x].eventType.OtherType? && Kept(b, at[x])
    ensures a < |dls| && FirstOf(hash, dls, a) && SameEvent(dls[a], dls[x])
  {
    var j: nat :| IsEvent(b, j) && j in b.pending && SameEvent(b.log[j].dl, dls[x]);
    assert Records(hash, b, j, dls);
    a :| RecordsFirst(hash, b, j, dls, a);
  }

  lemma KeptBySource(hash: Hash, b: Broker, dls: seq<DeadLetter>, at: seq<nat>, y: nat)
    requires OneByOne(hash, b, dls, at) && y < |dls| && !dls[y].eventType.OtherType? && Kept(b, at[y])
    ensures FirstOf(hash, dls, y)
  {
    assert !Queued(b, at[y]) by {
      assert forall j :: j in b.pending ==> Records(hash, b, j, dls);
    }
    var k: nat, o: nat :| PutBackBy(b, at[y], k, o);
    assert Sent(hash, b.source[k], dls, at);
    var a: nat :| SentFirst(hash, b.source[k], dls, at, a);
    assert o == at[y] && at[y] <= at[a];
    assert !(a < y);
  }

  lemma ThreeSteps(env: Env, s: State, run: seq<Step>)
    requires |run| == 3 && Enabled(s, run[0])
    requires Enabled(Execute(env, s, run[0]), run[1])
    requires Enabled(Execute(env, Execute(env, s, run[0]), run[1]), run[2])
    ensures Possible(env, s, run)
    ensures After(env, s, run) == Execute(env, Execute(env, Execute(env, s, run[0]), run[1]), run[2])
  {
    var s1 := Execute(env, s, run[0]);
    var s2 := Execute(env, s1, run[1]);
    var last := run[1..][1..];
    assert last[0] == run[2] && last[1..] == [];
    NoStep(env, Execute(env, s2, run[2]));
    assert Possible(env, s2, last) && After(env, s2, last) == Execute(env, s2, run[2]);
    assert run[1..][0] == run[1];
    assert Possible(env, s1, run[1..]) && After(env, s1, run[1..]) == After(env, s2, last);
  }

  lemma NoStep(env: Env, s: State)
    ensures Possible(env, s, []) && After(env, s, []) == s
  {
  }

  lemma {:induction false} PossibleConcat(env: Env, s: State, first: seq<Step>, second: seq<Step>)
    requires Possible(env, s, first) && Possible(env, After(env, s, first), second)
    ensures Possible(env, s, first + second)
    ensures After(env, s, first + second) == After(env, After(env, s, first), second)
    decreases |first|
  {
    if first == [] {
      assert first + second == second;
    } else {
      assert (first + second)[1..] == first[1..] + second;
      PossibleConcat(env, Execute(env, s, first[0]), first[1..], second);
    }
  }
}
