/**
 The periodic drain does bounded work: a message it has handled comes back only
 when it is due or after a whole waiting time, so within one run every message
 uses up a finite number of visits.
 */
module RetryDrain {
  import opened Prelude
  import opened Backoff
  import opened DeadLetters
  import opened RetryProtocol
  import opened RetryPaths

  // One run of the drain: when it started, when the last message it can fetch
  // becomes visible, a time every wait takes at least, and the generations of
  // the policies, which do not change meanwhile.
  datatype Drain = Drain(start: int, until: int, gap: int, generations: map<string, int>)

  // Waiting for an ack, an interval, the base wait and the shortest backoff all
  // take `gap`.
  ghost predicate Spaced(schedule: Schedule, gap: int) {
    && schedule.Sensible() && 0 < gap <= ACK_WAIT && gap <= schedule.interval && gap <= schedule.base
    && gap + SECOND <= CalculateBackoff(schedule, 1)
  }

  // The default settings leave a minute between visits.
  lemma DefaultsSpaced(overflow: FloatOverflow)
    ensures Spaced(Schedule(300 * SECOND, 60 * SECOND, 2.0, 86_400 * SECOND, overflow), 60 * SECOND)
  {
    var s := Schedule(300 * SECOND, 60 * SECOND, 2.0, 86_400 * SECOND, overflow);
    assert Pow(2.0, 1) == 2.0 * Pow(2.0, 0);
    assert Product(s, 1) == (120 * SECOND) as real;
  }

  function GenerationIn(r: Drain, name: string): int {
    if name in r.generations then r.generations[name] else 0
  }

  // How often something visible at `v`, and then after each gap, can be fetched.
  function Slots(r: Drain, v: int): nat
    requires r.gap > 0
  {
    if v >= r.until then 0 else (r.until - 1 - v) / r.gap + 1
  }

  lemma SlotsMonotone(r: Drain, v: int, w: int)
    requires r.gap > 0 && v <= w
    ensures Slots(r, w) <= Slots(r, v)
  {
    if w < r.until {
      QuotientMonotone(r.until - 1 - w, r.until - 1 - v, r.gap);
    }
  }

  lemma SlotsDrop(r: Drain, v: int, w: int)
    requires r.gap > 0 && v + r.gap <= w && v < r.until
    ensures Slots(r, w) + 1 <= Slots(r, v)
  {
    if w < r.until {
      var x := r.until - 1 - v;
      QuotientMonotone(r.until - 1 - w, x - r.gap, r.gap);
      QuotientLess(x, r.gap);
    }
  }

  lemma QuotientMonotone(x: int, y: int, g: int)
    requires g > 0 && 0 <= x <= y
    ensures x / g <= y / g
  {
    var q, p := x / g, y / g;
    assert p + 1 <= q ==> (p + 1) * g <= q * g;
  }

  lemma QuotientLess(x: int, g: int)
    requires g > 0 && x >= g
    ensures (x - g) / g + 1 == x / g
  {
    var q, p := (x - g) / g, x / g;
    assert q + 2 <= p ==> (q + 2) * g <= p * g;
    assert p <= q ==> (p + 1) * g <= (q + 1) * g;
  }

  // What `a` attempts that fit into the run can cost: each of them, and the
  // visits of a successor it may store, which is screened once before it is due.
  function Branching(r: Drain, a: nat): nat
    requires r.gap > 0
  {
    if a == 0 then 0 else 2 * Branching(r, a - 1) + Slots(r, r.start) + 1
  }

  lemma {:induction false} BranchingMonotone(r: Drain, a: nat, c: nat)
    requires r.gap > 0 && a <= c
    ensures Branching(r, a) <= Branching(r, c)
    decreases c
  {
    if a < c {
      BranchingMonotone(r, a, c - 1);
    }
  }

  predicate Newer(setup: Setup, r: Drain, dl: DeadLetter) {
    setup.hasGeneration && GenerationIn(r, dl.policyName) > dl.policyVersion
  }

  // When an event that is visible from `v` on can be attempted.
  function Due(setup: Setup, r: Drain, dl: DeadLetter, v: int): int {
    if Newer(setup, r, dl) || dl.nextRetryAfter.None? || dl.nextRetryAfter.value <= v then v else dl.nextRetryAfter.value
  }

  // A bound on the visits a message visible from `v` on leads to.
  function Visits(setup: Setup, r: Drain, msg: Message, v: int): nat
    requires r.gap > 0
  {
    match msg
    case Corrupt(_) => Slots(r, v)
    case Parsed(dl) =>
      var due := Due(setup, r, dl, v);
      Branching(r, Slots(r, due)) + Slots(r, v) + if due > v then 1 else 0
  }

  lemma VisitsMonotone(setup: Setup, r: Drain, msg: Message, v: int, w: int)
    requires r.gap > 0 && v <= w
    ensures Visits(setup, r, msg, w) <= Visits(setup, r, msg, v)
  {
    SlotsMonotone(r, v, w);
    if msg.Parsed? {
      var due, later := Due(setup, r, msg.dl, v), Due(setup, r, msg.dl, w);
      SlotsMonotone(r, due, later);
      BranchingMonotone(r, Slots(r, later), Slots(r, due));
    }
  }

  // Waiting for at least `gap` costs one visit.
  lemma VisitsDrop(setup: Setup, r: Drain, msg: Message, v: int, w: int)
    requires r.gap > 0 && v + r.gap <= w && v < r.until
    ensures Visits(setup, r, msg, w) + 1 <= Visits(setup, r, msg, v)
  {
    SlotsDrop(r, v, w);
    if msg.Parsed? {
      var due, later := Due(setup, r, msg.dl, v), Due(setup, r, msg.dl, w);
      SlotsMonotone(r, due, later);
      BranchingMonotone(r, Slots(r, later), Slots(r, due));
    }
  }

  // So does waiting until the event is due.
  lemma VisitsWhenDue(setup: Setup, r: Drain, dl: DeadLetter, v: int, w: int)
    requires r.gap > 0 && v < Due(setup, r, dl, v) <= w
    ensures Visits(setup, r, Parsed(dl), w) + 1 <= Visits(setup, r, Parsed(dl), v)
  {
    SlotsMonotone(r, v, w);
    SlotsMonotone(r, Due(setup, r, dl, v), w);
    BranchingMonotone(r, Slots(r, w), Slots(r, Due(setup, r, dl, v)));
  }

  // An attempt pays for the redelivery of its message and for the successor.
  lemma AttemptPays(setup: Setup, r: Drain, dl: DeadLetter, now: int, next: DeadLetter, at: int)
    requires r.gap > 0 && r.start <= now < r.until && Due(setup, r, dl, now) == now
    requires r.gap <= ACK_WAIT
    requires at >= now && !Newer(setup, r, next) && next.nextRetryAfter.Some? && next.nextRetryAfter.value >= now + r.gap
    ensures Visits(setup, r, Parsed(dl), now + ACK_WAIT) + Visits(setup, r, Parsed(next), at) + 1
            <= Visits(setup, r, Parsed(dl), now)
  {
    var a := Slots(r, now);
    SlotsDrop(r, now, now + ACK_WAIT);
    var due := Due(setup, r, next, at);
    SlotsDrop(r, now, due);
    SlotsMonotone(r, r.start, at);
    BranchingMonotone(r, Slots(r, due), a - 1);
    BranchingMonotone(r, Slots(r, now + ACK_WAIT), a - 1);
    assert Due(setup, r, dl, now + ACK_WAIT) == now + ACK_WAIT;
  }

  // ---------------------------------------------------------------------
  // One handling
  // ---------------------------------------------------------------------

  // The message was handled in run `r`, in a batch fetched at `now`.
  ghost predicate InDrain(setup: Setup, b: Broker, h: Handling, r: Drain, now: int) {
    && Proper(setup, h) && NoPlainNak(h.path)
    && h.filter == None && h.n < |b.log| && h.msg == b.log[h.n]
    && r.start <= now < r.until && h.obs.now == now && h.obs.clock >= now
    && (forall x :: x in h.path ==> x.at >= h.obs.clock)
    && FixedGeneration(r, h)
  }

  // The handling read the generation that its policy has throughout the run.
  predicate FixedGeneration(r: Drain, h: Handling) {
    h.msg.Parsed? ==>
      && h.obs.generationAtCheck == GenerationIn(r, h.msg.dl.policyName)
      && h.obs.generationAtStamp == GenerationIn(r, h.msg.dl.policyName)
  }

  function VisitsOf(setup: Setup, r: Drain, b: Broker, m: nat): nat
    requires r.gap > 0
  {
    if m in b.pending && m < |b.log| then Visits(setup, r, b.log[m], b.pending[m]) else 0
  }

  predicate Hidden(b: Broker, n: nat, now: int) {
    n in b.pending ==> b.pending[n] == now + ACK_WAIT
  }

  // The broker `b'` differs from `b` in message `n` and at most one new message,
  // which cost at least one visit less.
  ghost predicate Spends(setup: Setup, r: Drain, b: Broker, b': Broker, n: nat, now: int)
    requires r.gap > 0 && n < |b.log|
  {
    && b.log <= b'.log && |b'.log| <= |b.log| + 1
    && (forall m :: m in b'.pending ==> m < |b'.log|)
    && (forall m: nat | m < |b.log| && m != n ::
          (m in b.pending <==> m in b'.pending) && (m in b.pending ==> b'.pending[m] == b.pending[m]))
    && VisitsOf(setup, r, b', n) + VisitsOf(setup, r, b', |b.log|) + 1 <= Visits(setup, r, b.log[n], now)
  }

  // What a handling leaves in the queue costs at least one visit less.
  lemma HandlingSpends(hash: Hash, setup: Setup, b: Broker, h: Handling, r: Drain, now: int)
    requires InDrain(setup, b, h, r, now) && Spaced(setup.schedule, r.gap) && Hidden(b, h.n, now)
    requires forall m :: m in b.pending ==> m < |b.log|
    ensures Spends(setup, r, b, Replay(hash, setup.schedule, b, h.n, h.path), h.n, now)
  {
    var pc := Decide(setup, h.filter, h.msg, h.obs);
    PathShape(pc, h.path);
    assert h.path[0] in h.path;
    ReplayUnfold(hash, setup.schedule, b, h.n, h.path);
    match h.msg
    case Corrupt(_) =>
      VisitsDrop(setup, r, h.msg, now, now + ACK_WAIT);
    case Parsed(dl) =>
      if Eligible(setup, dl, h.obs) {
        AttemptSpends(hash, setup, b, h, r, now);
      } else {
        DeferralSpends(hash, setup, b, h, r, now);
      }
  }

  lemma DeferralSpends(hash: Hash, setup: Setup, b: Broker, h: Handling, r: Drain, now: int)
    requires InDrain(setup, b, h, r, now) && Spaced(setup.schedule, r.gap) && Hidden(b, h.n, now)
    requires forall m :: m in b.pending ==> m < |b.log|
    requires h.msg.Parsed? && !Eligible(setup, h.msg.dl, h.obs)
    ensures Spends(setup, r, b, Replay(hash, setup.schedule, b, h.n, h.path), h.n, now)
  {
    var delay := DeferralDelay(setup.schedule, h.msg.dl.nextRetryAfter, h.obs.clock);
    PathShape(Deferring(delay), h.path);
    assert h.path[0] in h.path;
    ReplayUnfold(hash, setup.schedule, b, h.n, h.path);
    VisitsDrop(setup, r, h.msg, now, now + ACK_WAIT);
    DeferredVisits(setup, h, r, now, h.path[0].at + delay);
  }

  // A deferred message costs a visit less when it is back.
  lemma DeferredVisits(setup: Setup, h: Handling, r: Drain, now: int, back: int)
    requires Spaced(setup.schedule, r.gap) && r.start <= now < r.until && h.obs.now == now && h.obs.clock >= now
    requires h.msg.Parsed? && !Eligible(setup, h.msg.dl, h.obs) && FixedGeneration(r, h)
    requires back >= h.obs.clock + DeferralDelay(setup.schedule, h.msg.dl.nextRetryAfter, h.obs.clock)
    ensures Visits(setup, r, h.msg, back) + 1 <= Visits(setup, r, h.msg, now)
  {
    DeferralWithinInterval(setup.schedule, h.msg.dl.nextRetryAfter, h.obs.clock);
    if back >= now + r.gap {
      VisitsDrop(setup, r, h.msg, now, back);
    } else {
      VisitsWhenDue(setup, r, h.msg.dl, now, back);
    }
  }

  // The broker `b'` is `b` with at most `next` stored, no earlier than `now`.
  ghost predicate AtMostStored(b: Broker, b': Broker, next: DeadLetter, now: int) {
    && b.log <= b'.log && |b'.log| <= |b.log| + 1
    && (forall m :: m in b'.pending ==> m < |b'.log|)
    && (forall m: nat | m < |b.log| ::
          (m in b.pending <==> m in b'.pending) && (m in b.pending ==> b'.pending[m] == b.pending[m]))
    && (|b'.log| == |b.log| + 1 ==>
          b'.log[|b.log|] == Parsed(next) && |b.log| in b'.pending && b'.pending[|b.log|] >= now)
  }

  // An attempt leaves its message where it is, and stores at most a successor.
  lemma AttemptEffect(hash: Hash, schedule: Schedule, b: Broker, n: nat, pc: Pc, path: seq<Exchange>, now: int)
    requires (pc.Republishing? || pc.Recording?) && pc.now == now
    requires Follows(pc, path) && NoPlainNak(path) && forall x :: x in path ==> x.at >= now
    requires forall m :: m in b.pending ==> m < |b.log|
    ensures AtMostStored(b, Replay(hash, schedule, b, n, path), Successor(schedule, pc.dl, now), now)
  {
    PathShape(pc, path);
    ReplayUnfold(hash, schedule, b, n, path);
    assert path[0] in path && path[1] in path;
    var b1 := Effect(hash, schedule, b, n, path[0]);
    var b2 := Effect(hash, schedule, b1, n, path[1]);
    assert AtMostStored(b, b1, Successor(schedule, pc.dl, now), now);
    assert AtMostStored(b, b2, Successor(schedule, pc.dl, now), now);
  }

  lemma AttemptSpends(hash: Hash, setup: Setup, b: Broker, h: Handling, r: Drain, now: int)
    requires InDrain(setup, b, h, r, now) && Spaced(setup.schedule, r.gap) && Hidden(b, h.n, now)
    requires forall m :: m in b.pending ==> m < |b.log|
    requires h.msg.Parsed? && Eligible(setup, h.msg.dl, h.obs)
    ensures Spends(setup, r, b, Replay(hash, setup.schedule, b, h.n, h.path), h.n, now)
  {
    var b' := Replay(hash, setup.schedule, b, h.n, h.path);
    AttemptEffect(hash, setup.schedule, b, h.n, Attempt(setup, h.msg.dl, h.obs), h.path, now);
    VisitsDrop(setup, r, h.msg, now, now + ACK_WAIT);
    if |b'.log| == |b.log| + 1 {
      SuccessorSpends(setup, h, r, now, b'.pending[|b.log|]);
    }
  }

  lemma SuccessorSpends(setup: Setup, h: Handling, r: Drain, now: int, at: int)
    requires Spaced(setup.schedule, r.gap) && r.start <= now < r.until && h.obs.now == now && at >= now
    requires h.msg.Parsed? && Eligible(setup, h.msg.dl, h.obs) && FixedGeneration(r, h)
    ensures var next := Successor(setup.schedule, Stamp(setup, h.msg.dl, h.obs.generationAtStamp), now);
            Visits(setup, r, h.msg, now + ACK_WAIT) + Visits(setup, r, Parsed(next), at) + 1 <= Visits(setup, r, h.msg, now)
  {
    var stamped := Stamp(setup, h.msg.dl, h.obs.generationAtStamp);
    BackoffMonotone(setup.schedule, 1, stamped.retryCount + 1);
    AttemptPays(setup, r, h.msg.dl, now, Successor(setup.schedule, stamped, now), at);
  }

  // ---------------------------------------------------------------------
  // A batch and a run
  // ---------------------------------------------------------------------

  // The queue in the middle of a batch fetched at `now`: the messages in hand
  // still count as they did when they were fetched.
  datatype View = View(b: Broker, hand: set<nat>, now: int)

  function VisitsIn(setup: Setup, r: Drain, v: View, m: nat): nat
    requires r.gap > 0
  {
    if m in v.hand && m < |v.b.log| then Visits(setup, r, v.b.log[m], v.now) else VisitsOf(setup, r, v.b, m)
  }

  // A bound on all the visits that the first `k` messages lead to.
  function AllVisits(setup: Setup, r: Drain, v: View, k: nat): nat
    requires r.gap > 0
  {
    if k == 0 then 0 else AllVisits(setup, r, v, k - 1) + VisitsIn(setup, r, v, k - 1)
  }

  lemma {:induction false} AllVisitsLess(setup: Setup, r: Drain, v: View, w: View, k: nat)
    requires r.gap > 0
    requires forall m: nat :: m < k ==> VisitsIn(setup, r, w, m) <= VisitsIn(setup, r, v, m)
    ensures AllVisits(setup, r, w, k) <= AllVisits(setup, r, v, k)
  {
    if k > 0 {
      AllVisitsLess(setup, r, v, w, k - 1);
    }
  }

  lemma {:induction false} AllVisitsDrop(setup: Setup, r: Drain, v: View, w: View, k: nat, n: nat, drop: nat)
    requires r.gap > 0 && n < k && VisitsIn(setup, r, w, n) + drop <= VisitsIn(setup, r, v, n)
    requires forall m: nat :: m < k ==> VisitsIn(setup, r, w, m) <= VisitsIn(setup, r, v, m)
    ensures AllVisits(setup, r, w, k) + drop <= AllVisits(setup, r, v, k)
  {
    if n == k - 1 {
      AllVisitsLess(setup, r, v, w, k - 1);
    } else {
      AllVisitsDrop(setup, r, v, w, k - 1, n, drop);
    }
  }

  function Left(setup: Setup, r: Drain, b: Broker): nat
    requires r.gap > 0
  {
    AllVisits(setup, r, View(b, {}, r.start), |b.log|)
  }

  // Messages from the i-th of a batch on.
  function InHand(msgs: seq<nat>, i: nat): set<nat>
    requires i <= |msgs|
  {
    set m | m in msgs[i..]
  }

  // The batch fetched at `now`, after `i` of its messages were handled.
  ghost predicate DrainHolds(setup: Setup, b: Broker, r: Drain, now: int, msgs: seq<nat>, i: nat, budget: nat) {
    && i <= |msgs| && Distinct(msgs) && Spaced(setup.schedule, r.gap) && r.start <= now < r.until
    && (forall m :: m in b.pending ==> m < |b.log|)
    && (forall m :: m in msgs[i..] ==> m < |b.log| && Hidden(b, m, now))
    && i + AllVisits(setup, r, View(b, InHand(msgs, i), now), |b.log|) <= budget
  }

  lemma DrainFetch(setup: Setup, b: Broker, b': Broker, r: Drain, now: int, msgs: seq<nat>)
    requires Spaced(setup.schedule, r.gap) && r.start <= now < r.until && Distinct(msgs)
    requires forall m :: m in b.pending ==> m < |b.log|
    requires b'.log == b.log && b'.pending.Keys <= b.pending.Keys
    requires forall m :: m in msgs ==> m in b.pending && b.pending[m] <= now && Hidden(b', m, now)
    requires forall m :: m in b'.pending && m !in msgs ==> b'.pending[m] == b.pending[m]
    ensures DrainHolds(setup, b', r, now, msgs, 0, Left(setup, r, b))
  {
    var v, w := View(b, {}, r.start), View(b', InHand(msgs, 0), now);
    assert msgs[0..] == msgs;
    forall m: nat | m < |b.log| ensures VisitsIn(setup, r, w, m) <= VisitsIn(setup, r, v, m) {
      if m in msgs {
        VisitsMonotone(setup, r, b.log[m], b.pending[m], now);
      }
    }
    AllVisitsLess(setup, r, v, w, |b.log|);
  }

  lemma DrainStep(hash: Hash, setup: Setup, b: Broker, h: Handling, r: Drain, now: int, msgs: seq<nat>, i: nat, budget: nat)
    requires DrainHolds(setup, b, r, now, msgs, i, budget) && i < |msgs| && h.n == msgs[i] && InDrain(setup, b, h, r, now)
    ensures DrainHolds(setup, Replay(hash, setup.schedule, b, h.n, h.path), r, now, msgs, i + 1, budget)
  {
    assert h.n in msgs[i..];
    HandlingSpends(hash, setup, b, h, r, now);
    DrainNext(setup, b, Replay(hash, setup.schedule, b, h.n, h.path), r, now, msgs, i, budget);
  }

  lemma DrainNext(setup: Setup, b: Broker, b': Broker, r: Drain, now: int, msgs: seq<nat>, i: nat, budget: nat)
    requires DrainHolds(setup, b, r, now, msgs, i, budget) && i < |msgs| && msgs[i] < |b.log|
    requires Spends(setup, r, b, b', msgs[i], now)
    ensures DrainHolds(setup, b', r, now, msgs, i + 1, budget)
  {
    var v, w := View(b, InHand(msgs, i), now), View(b', InHand(msgs, i + 1), now);
    NextInHand(msgs, i);
    forall m | m in InHand(msgs, i) ensures m < |b.log| {
      assert m in msgs[i..];
    }
    SpendsAll(setup, r, b, b', InHand(msgs, i), msgs[i], now);
    assert w == View(b', InHand(msgs, i) - {msgs[i]}, now);
    assert AllVisits(setup, r, w, |b'.log|) + 1 <= AllVisits(setup, r, v, |b.log|);
    forall m | m in msgs[i + 1..] ensures m < |b'.log| && Hidden(b', m, now) {
      assert m in msgs[i..] && m != msgs[i];
      assert Hidden(b, m, now);
    }
    assert i + 1 + AllVisits(setup, r, w, |b'.log|) <= budget;
    assert Spaced(setup.schedule, r.gap) && r.start <= now < r.until && Distinct(msgs);
    assert forall m :: m in b'.pending ==> m < |b'.log|;
  }

  lemma NextInHand(msgs: seq<nat>, i: nat)
    requires i < |msgs| && Distinct(msgs)
    ensures InHand(msgs, i + 1) == InHand(msgs, i) - {msgs[i]} && msgs[i] in InHand(msgs, i)
    ensures forall m :: m in msgs[i + 1..] ==> m in msgs[i..] && m != msgs[i]
  {
    assert msgs[i..] == [msgs[i]] + msgs[i + 1..];
  }

  lemma SpendsAll(setup: Setup, r: Drain, b: Broker, b': Broker, hand: set<nat>, n: nat, now: int)
    requires r.gap > 0 && n < |b.log| && n in hand && Spends(setup, r, b, b', n, now)
    requires forall m :: m in hand ==> m < |b.log|
    ensures AllVisits(setup, r, View(b', hand - {n}, now), |b'.log|) + 1 <= AllVisits(setup, r, View(b, hand, now), |b.log|)
  {
    var v, w := View(b, hand, now), View(b', hand - {n}, now);
    forall m: nat | m < |b.log| && m != n ensures VisitsIn(setup, r, w, m) == VisitsIn(setup, r, v, m) {
      assert b'.log[m] == b.log[m];
    }
    AllVisitsDrop(setup, r, v, w, |b.log|, n, VisitsOf(setup, r, b', |b.log|) + 1);
  }

  lemma DrainEnds(setup: Setup, b: Broker, r: Drain, now: int, msgs: seq<nat>, budget: nat)
    requires DrainHolds(setup, b, r, now, msgs, |msgs|, budget)
    ensures |msgs| + Left(setup, r, b) <= budget
  {
    AllVisitsLess(setup, r, View(b, InHand(msgs, |msgs|), now), View(b, {}, r.start), |b.log|);
  }
}
