/**
 The event exporter's publish queue: one informer callback that never blocks
 and sheds the oldest job, one drain loop that publishes, interleaved at
 single channel operations.
 */
module ExporterQueue {
  import opened Prelude

  datatype Job = Job(event: string, resourceVersion: nat, eventType: string)

  // Where the producer is in `enqueue`.
  datatype Producer = Idle | Trying(job: Job) | Evicting(job: Job) | Retrying(job: Job)

  // Where the drain loop is: blocked in its select, holding a job it has just
  // pulled, or gone.
  datatype Consumer = Waiting | Pulled(job: Job) | Stopped

  datatype Fate = Taken | Evicted

  // `enqueued` lists every job a channel send accepted and `left` every job
  // that left the channel, in order; the other lists say what became of them.
  datatype State = State(
    capacity: nat,
    queue: seq<Job>,
    producer: Producer,
    consumer: Consumer,
    cancelled: bool,
    inFlight: nat,
    enqueued: seq<Job>,
    left: seq<(Job, Fate)>,
    attempted: seq<Job>,
    discarded: seq<Job>,
    shed: seq<Job>)

  function Start(capacity: nat): State {
    State(capacity, [], Idle, Waiting, false, 0, [], [], [], [], [])
  }

  // `parked` is whether the drain loop is already blocked in its receive, which
  // is what a send on a channel without a buffer needs.
  datatype Op =
    | Offer(job: Job)
    | TrySend(parked: bool)
    | EvictOldest
    | Receive
    | Publish(inFlight: bool)
    | Discard
    | Acknowledge
    | Cancel
    | Stop

  predicate Fits(s: State, parked: bool) {
    |s.queue| < s.capacity || (s.capacity == 0 && parked && s.consumer.Waiting?)
  }

  // A send that the buffer holds, or that goes straight to the drain loop.
  function Send(s: State, job: Job): State {
    if |s.queue| < s.capacity then s.(queue := s.queue + [job], enqueued := s.enqueued + [job])
    else s.(consumer := Pulled(job), enqueued := s.enqueued + [job], left := s.left + [(job, Taken)])
  }

  predicate Enabled(s: State, op: Op) {
    match op
    case Offer(_) => s.producer.Idle?
    case TrySend(_) => s.producer.Trying? || s.producer.Retrying?
    case EvictOldest => s.producer.Evicting?
    case Receive => s.consumer.Waiting? && s.queue != []
    case Publish(_) => s.consumer.Pulled?
    case Discard => s.consumer.Pulled? && s.cancelled
    case Acknowledge => s.inFlight > 0
    case Cancel => true
    case Stop => s.consumer.Waiting? && s.cancelled
  }

  function Next(s: State, op: Op): State
    requires Enabled(s, op)
  {
    match op
    case Offer(job) => s.(producer := Trying(job))
    case TrySend(parked) =>
      var job := s.producer.job;
      if Fits(s, parked) then Send(s, job).(producer := Idle)
      else if s.producer.Trying? then s.(producer := Evicting(job))
      else s.(producer := Idle, shed := s.shed + [job])
    case EvictOldest =>
      var s' := s.(producer := Retrying(s.producer.job));
      if s.queue == [] then s' else s'.(queue := s.queue[1..], left := s.left + [(s.queue[0], Evicted)])
    case Receive =>
      s.(queue := s.queue[1..], consumer := Pulled(s.queue[0]), left := s.left + [(s.queue[0], Taken)])
    case Publish(inFlight) =>
      s.(consumer := Waiting, attempted := s.attempted + [s.consumer.job],
         inFlight := if inFlight then s.inFlight + 1 else s.inFlight)
    case Discard => s.(consumer := Stopped, discarded := s.discarded + [s.consumer.job])
    case Acknowledge => s.(inFlight := s.inFlight - 1)
    case Cancel => s.(cancelled := true)
    case Stop => s.(consumer := Stopped)
  }

  predicate Possible(s: State, ops: seq<Op>)
    decreases ops, 0
  {
    ops == [] || (Possible(s, ops[..|ops| - 1]) && Enabled(Run(s, ops[..|ops| - 1]), ops[|ops| - 1]))
  }

  function Run(s: State, ops: seq<Op>): State
    requires Possible(s, ops)
    decreases ops, 1
  {
    if ops == [] then s else Next(Run(s, ops[..|ops| - 1]), ops[|ops| - 1])
  }

  // ---------------------------------------------------------------------
  // What every step keeps
  // ---------------------------------------------------------------------

  function JobsOf(left: seq<(Job, Fate)>): seq<Job> {
    seq(|left|, i requires 0 <= i < |left| => left[i].0)
  }

  function WithFate(left: seq<(Job, Fate)>, fate: Fate): seq<Job> {
    if left == [] then []
    else
      var n := |left| - 1;
      WithFate(left[..n], fate) + (if left[n].1 == fate then [left[n].0] else [])
  }

  function Held(c: Consumer): seq<Job> {
    if c.Pulled? then [c.job] else []
  }

  // The queue is what is left of the accepted jobs after those that went out
  // at its front, and the taken ones were published, or dropped at shutdown,
  // one by one in that order.
  predicate Inv(s: State) {
    s.enqueued == JobsOf(s.left) + s.queue &&
    |s.queue| <= s.capacity &&
    WithFate(s.left, Taken) == s.attempted + Held(s.consumer) + s.discarded &&
    (!s.consumer.Stopped? ==> s.discarded == []) &&
    |s.discarded| <= 1
  }

  // Between an eviction and the send that follows, nobody else can fill the
  // slot it freed.
  predicate NeverSheds(s: State) {
    s.shed == [] && (s.producer.Retrying? ==> |s.queue| < s.capacity)
  }

  lemma {:induction false} FatesCount(left: seq<(Job, Fate)>)
    ensures |left| == |WithFate(left, Taken)| + |WithFate(left, Evicted)|
  {
    if left != [] {
      FatesCount(left[..|left| - 1]);
    }
  }

  lemma SendKeeps(s: State, parked: bool)
    requires Inv(s) && Enabled(s, TrySend(parked))
    ensures Inv(Next(s, TrySend(parked)))
  {
    var job := s.producer.job;
    if |s.queue| < s.capacity {
      assert s.enqueued + [job] == JobsOf(s.left) + (s.queue + [job]);
    } else if Fits(s, parked) {
      assert s.queue == [];
      assert s.attempted + [] + [] == s.attempted;
      assert s.attempted + [job] + [] == s.attempted + [job];
      assert JobsOf(s.left) + [] == JobsOf(s.left);
    }
  }

  lemma StepKeeps(s: State, op: Op)
    requires Inv(s) && Enabled(s, op)
    ensures Inv(Next(s, op))
  {
    match op
    case TrySend(parked) => SendKeeps(s, parked);
    case EvictOldest =>
    case Receive =>
      assert s.attempted + [] + [] + [s.queue[0]] == s.attempted + [s.queue[0]] + [];
    case Publish(_) => assert s.attempted + [s.consumer.job] + [] == s.attempted + [s.consumer.job] + [] + [];
    case Discard => assert s.attempted + [s.consumer.job] + [] == s.attempted + [] + [s.consumer.job];
    case _ =>
  }

  lemma {:induction false} RunKeeps(capacity: nat, ops: seq<Op>)
    requires Possible(Start(capacity), ops)
    ensures Inv(Run(Start(capacity), ops)) && Run(Start(capacity), ops).capacity == capacity
    ensures capacity >= 1 ==> NeverSheds(Run(Start(capacity), ops))
  {
    if ops == [] {
      assert JobsOf([]) == [];
    } else {
      var n := |ops| - 1;
      RunKeeps(capacity, ops[..n]);
      StepKeeps(Run(Start(capacity), ops[..n]), ops[n]);
    }
  }

  // Every accepted job is queued, taken or evicted, and counted once.
  lemma Conservation(capacity: nat, ops: seq<Op>)
    requires Possible(Start(capacity), ops)
    ensures var s := Run(Start(capacity), ops);
            |s.enqueued| == |WithFate(s.left, Taken)| + |WithFate(s.left, Evicted)| + |s.queue| &&
            |s.queue| <= capacity && |s.left| <= |s.enqueued| && s.queue == s.enqueued[|s.left|..]
  {
    RunKeeps(capacity, ops);
    FatesCount(Run(Start(capacity), ops).left);
  }

  // `xs` is `ys` with some elements left out.
  predicate Subsequence(xs: seq<Job>, ys: seq<Job>) {
    if xs == [] then true
    else if ys == [] then false
    else
      var m, n := |xs| - 1, |ys| - 1;
      (xs[m] == ys[n] && Subsequence(xs[..m], ys[..n])) || Subsequence(xs, ys[..n])
  }

  lemma {:induction false} TakenInOrder(left: seq<(Job, Fate)>)
    ensures Subsequence(WithFate(left, Taken), JobsOf(left))
  {
    if left != [] {
      var n := |left| - 1;
      TakenInOrder(left[..n]);
      assert JobsOf(left)[..n] == JobsOf(left[..n]);
      var xs := WithFate(left[..n], Taken);
      if left[n].1.Taken? {
        assert (xs + [left[n].0])[..|xs|] == xs;
      } else {
        assert xs + [] == xs;
      }
    }
  }

  lemma {:induction false} LongerSubsequence(xs: seq<Job>, ys: seq<Job>, zs: seq<Job>)
    requires Subsequence(xs, ys)
    ensures Subsequence(xs, ys + zs)
  {
    if zs == [] {
      assert ys + zs == ys;
    } else {
      var n := |zs| - 1;
      LongerSubsequence(xs, ys, zs[..n]);
      assert (ys + zs)[..|ys| + n] == ys + zs[..n];
    }
  }

  lemma {:induction false} PrefixSubsequence(xs: seq<Job>, ys: seq<Job>, zs: seq<Job>)
    requires Subsequence(xs + ys, zs)
    ensures Subsequence(xs, zs)
    decreases |ys| + |zs|
  {
    if ys == [] {
      assert xs + ys == xs;
    } else if xs != [] && zs != [] {
      var m, n := |xs + ys| - 1, |zs| - 1;
      assert (xs + ys)[..m] == xs + ys[..|ys| - 1];
      if (xs + ys)[m] == zs[n] && Subsequence((xs + ys)[..m], zs[..n]) {
        PrefixSubsequence(xs, ys[..|ys| - 1], zs[..n]);
      } else {
        PrefixSubsequence(xs, ys, zs[..n]);
      }
    }
  }

  // Publishes are attempted in the order jobs were accepted.
  lemma PublishedInOrder(capacity: nat, ops: seq<Op>)
    requires Possible(Start(capacity), ops)
    ensures var s := Run(Start(capacity), ops); Subsequence(s.attempted, s.enqueued)
  {
    RunKeeps(capacity, ops);
    var s := Run(Start(capacity), ops);
    TakenInOrder(s.left);
    assert s.attempted + Held(s.consumer) + s.discarded == s.attempted + (Held(s.consumer) + s.discarded);
    PrefixSubsequence(s.attempted, Held(s.consumer) + s.discarded, JobsOf(s.left));
    LongerSubsequence(s.attempted, JobsOf(s.left), s.queue);
  }

  // The job being enqueued is never the one shed exactly when the queue has
  // room for one: without a buffer the drain loop may be busy publishing.
  lemma IncomingKeptIffRoom(capacity: nat)
    ensures (forall ops :: Possible(Start(capacity), ops) ==> Run(Start(capacity), ops).shed == []) <==> capacity >= 1
  {
    if capacity >= 1 {
      forall ops | Possible(Start(capacity), ops) ensures Run(Start(capacity), ops).shed == [] {
        RunKeeps(capacity, ops);
      }
    } else {
      var ops, job := UnbufferedRun();
      assert Run(Start(capacity), ops).shed == [job];
    }
  }

  lemma UnbufferedRun() returns (ops: seq<Op>, job: Job)
    ensures Possible(Start(0), ops) && Run(Start(0), ops).shed == [job]
  {
    job := Job("e", 1, "ADDED");
    ops := [Offer(job), TrySend(false), EvictOldest, TrySend(false)];
    assert ops[..3] == [Offer(job), TrySend(false), EvictOldest];
    assert ops[..3][..2] == [Offer(job), TrySend(false)];
    assert ops[..3][..2][..1] == [Offer(job)];
    assert [Offer(job)][..0] == [];
    assert Possible(Start(0), []) && Run(Start(0), []) == Start(0);
    assert Possible(Start(0), [Offer(job)]);
    assert Possible(Start(0), [Offer(job), TrySend(false)]);
    assert Possible(Start(0), [Offer(job), TrySend(false), EvictOldest]);
  }

  // ---------------------------------------------------------------------
  // The exporter object
  // ---------------------------------------------------------------------

  // Steps of the drain loop, of acknowledgements and of shutdown.
  predicate Others(ops: seq<Op>) {
    forall i :: 0 <= i < |ops| ==> !ops[i].Offer? && !ops[i].TrySend? && !ops[i].EvictOldest?
  }

  class Exporter {
    const capacity: nat
    var queue: seq<Job>
    var consumer: Consumer
    var cancelled: bool
    var inFlight: nat
    ghost var producer: Producer
    ghost var enqueued: seq<Job>
    ghost var left: seq<(Job, Fate)>
    ghost var attempted: seq<Job>
    ghost var discarded: seq<Job>
    ghost var shed: seq<Job>

    ghost function View(): State
      reads this
    {
      State(capacity, queue, producer, consumer, cancelled, inFlight, enqueued, left, attempted, discarded, shed)
    }

    // The object has come to its state by these operations.
    ghost predicate Reached(ops: seq<Op>)
      reads this
    {
      Possible(Start(capacity), ops) && View() == Run(Start(capacity), ops)
    }

    constructor (capacity: nat)
      ensures this.capacity == capacity && Reached([]) && producer.Idle?
    {
      this.capacity := capacity;
      queue, consumer, cancelled, inFlight := [], Waiting, false, 0;
      producer, enqueued, left, attempted, discarded, shed := Idle, [], [], [], [], [];
    }

    // A select with a send and a default.
    method TryEnqueue(job: Job, ghost ops: seq<Op>) returns (ok: bool, ghost ops': seq<Op>)
      requires Reached(ops) && (producer == Trying(job) || producer == Retrying(job))
      modifies this
      ensures Reached(ops') && exists parked :: ops' == ops + [TrySend(parked)]
      ensures ok ==> producer.Idle? && shed == old(shed) && enqueued == old(enqueued) + [job]
      ensures !ok ==> |old(queue)| == capacity
      ensures !ok && old(producer).Trying? ==> producer == Evicting(job) && shed == old(shed) && enqueued == old(enqueued)
      ensures !ok && old(producer).Retrying? ==> producer.Idle? && shed == old(shed) + [job] && enqueued == old(enqueued)
    {
      var parked: bool := *;
      RunKeeps(capacity, ops);
      ops' := ops + [TrySend(parked)];
      if |queue| < capacity {
        queue := queue + [job];
        producer, enqueued := Idle, enqueued + [job];
        ok := true;
      } else if capacity == 0 && parked && consumer.Waiting? {
        consumer := Pulled(job);
        producer, enqueued, left := Idle, enqueued + [job], left + [(job, Taken)];
        ok := true;
      } else {
        if producer.Trying? {
          producer := Evicting(job);
        } else {
          producer, shed := Idle, shed + [job];
        }
        ok := false;
      }
    }

    // A select with a receive and a default.
    method DropOldest(ghost ops: seq<Op>) returns (ghost ops': seq<Op>)
      requires Reached(ops) && producer.Evicting?
      modifies this
      ensures Reached(ops') && ops' == ops + [EvictOldest]
      ensures producer == Retrying(old(producer).job) && shed == old(shed) && enqueued == old(enqueued)
    {
      ops' := ops + [EvictOldest];
      producer := Retrying(producer.job);
      if |queue| > 0 {
        left := left + [(queue[0], Evicted)];
        queue := queue[1..];
      }
    }

    // One step of another goroutine: any that is enabled, or none.
    method OtherStep(ghost ops: seq<Op>) returns (ghost ops': seq<Op>)
      requires Reached(ops)
      modifies this
      ensures Reached(ops') && ops <= ops' && Others(ops'[|ops|..])
      ensures producer == old(producer) && shed == old(shed) && enqueued == old(enqueued)
    {
      var choice: Op := *;
      ops' := ops;
      match choice {
        case Receive =>
          if consumer.Waiting? && |queue| > 0 {
            ops' := ops + [Receive];
            left := left + [(queue[0], Taken)];
            consumer := Pulled(queue[0]);
            queue := queue[1..];
          }
        case Publish(sent) =>
          if consumer.Pulled? {
            ops' := ops + [Publish(sent)];
            attempted := attempted + [consumer.job];
            consumer := Waiting;
            inFlight := if sent then inFlight + 1 else inFlight;
          }
        case Discard =>
          if consumer.Pulled? && cancelled {
            ops' := ops + [Discard];
            discarded := discarded + [consumer.job];
            consumer := Stopped;
          }
        case Acknowledge =>
          if inFlight > 0 {
            ops' := ops + [Acknowledge];
            inFlight := inFlight - 1;
          }
        case Cancel =>
          ops' := ops + [Cancel];
          cancelled := true;
        case Stop =>
          if consumer.Waiting? && cancelled {
            ops' := ops + [Stop];
            consumer := Stopped;
          }
        case _ =>
      }
    }

    // Any number of steps elsewhere between two channel operations.
    method Elsewhere(ghost ops: seq<Op>) returns (ghost ops': seq<Op>)
      requires Reached(ops)
      modifies this
      ensures Reached(ops') && ops <= ops' && Others(ops'[|ops|..])
      ensures producer == old(producer) && shed == old(shed) && enqueued == old(enqueued)
    {
      ops' := ops;
      var steps: nat :| steps >= 0;
      for i := 0 to steps
        invariant Reached(ops') && ops <= ops' && Others(ops'[|ops|..])
        invariant producer == old(producer) && shed == old(shed) && enqueued == old(enqueued)
      {
        ghost var before := ops';
        ops' := OtherStep(before);
        assert ops'[|ops|..] == before[|ops|..] + ops'[|before|..];
      }
    }

    // The callback: try, evict, try again, with the drain loop running between.
    method Enqueue(job: Job, ghost ops: seq<Op>) returns (ghost ops': seq<Op>)
      requires Reached(ops) && producer.Idle?
      modifies this
      ensures Reached(ops') && producer.Idle?
      ensures (enqueued == old(enqueued) + [job] && shed == old(shed)) ||
              (enqueued == old(enqueued) && shed == old(shed) + [job])
      ensures capacity >= 1 ==> enqueued == old(enqueued) + [job] && shed == old(shed)
    {
      ops' := ops + [Offer(job)];
      producer := Trying(job);
      ops' := Elsewhere(ops');
      var ok;
      ok, ops' := TryEnqueue(job, ops');
      if ok {
        return;
      }
      ops' := Elsewhere(ops');
      ops' := DropOldest(ops');
      ops' := Elsewhere(ops');
      RunKeeps(capacity, ops');
      ok, ops' := TryEnqueue(job, ops');
      RunKeeps(capacity, ops');
    }
  }
}
