/**
 The retry controller as it runs at one replica: fetch a batch, decide about
 each message, make the requests the decision calls for, and repeat until a
 scan finds nothing more. What the controller cannot determine (the broker's
 answers, evaluation outcomes, clock readings, and whatever ingest and other
 replicas do in between) is left open.
 */
module RetryController {
  import opened Prelude
  import opened Backoff
  import opened DeadLetters
  import opened RetryProtocol
  import opened RetryPaths
  import opened RetryRecords
  import RetryDrain

  function CountOutcome(setup: Setup, hs: seq<Handling>, outcome: Outcome): nat {
    if hs == [] then 0
    else CountOutcome(setup, hs[..|hs| - 1], outcome) + if OutcomeOf(setup, hs[|hs| - 1]) == outcome then 1 else 0
  }

  // The handlings of a batch, one for each of its messages and in their order.
  predicate InTurn(hs: seq<Handling>, msgs: seq<nat>, filter: Option<Filter>, now: int) {
    && |hs| == |msgs|
    && (hs == [] ||
        var last := |hs| - 1;
        && hs[last].n == msgs[last] && hs[last].filter == filter && hs[last].obs.now == now
        && InTurn(hs[..last], msgs[..last], filter, now))
  }

  lemma {:induction false} InTurnNumbers(hs: seq<Handling>, msgs: seq<nat>, filter: Option<Filter>, now: int)
    requires InTurn(hs, msgs, filter, now)
    ensures forall i :: 0 <= i < |hs| ==> hs[i].n == msgs[i]
  {
    if hs != [] {
      InTurnNumbers(hs[..|hs| - 1], msgs[..|hs| - 1], filter, now);
    }
  }

  lemma {:induction false} InTurnUnder(hs: seq<Handling>, msgs: seq<nat>, filter: Option<Filter>, now: int)
    requires InTurn(hs, msgs, filter, now)
    ensures forall i :: 0 <= i < |hs| ==> hs[i].filter == filter
  {
    if hs != [] {
      InTurnUnder(hs[..|hs| - 1], msgs[..|hs| - 1], filter, now);
    }
  }

  predicate Tally(setup: Setup, hs: seq<Handling>, msgs: seq<nat>, filter: Option<Filter>, now: int, succeeded: nat, failed: nat) {
    && InTurn(hs, msgs, filter, now)
    && succeeded == CountOutcome(setup, hs, Succeeded) && failed == CountOutcome(setup, hs, Failed)
  }

  lemma TallyNext(setup: Setup, hs: seq<Handling>, more: seq<Handling>, msgs: seq<nat>, i: nat, filter: Option<Filter>,
                  now: int, succeeded: nat, failed: nat)
    requires i < |msgs| && Tally(setup, hs, msgs[..i], filter, now, succeeded, failed)
    requires |more| == 1 && more[0].n == msgs[i] && more[0].filter == filter && more[0].obs.now == now
    ensures var outcome := OutcomeOf(setup, more[0]);
            Tally(setup, hs + more, msgs[..i + 1], filter, now,
                  if outcome == Succeeded then succeeded + 1 else succeeded, if outcome == Failed then failed + 1 else failed)
  {
    assert (hs + more)[..|hs|] == hs && msgs[..i + 1][..i] == msgs[..i];
  }

  // Which kind of pass a batch belongs to: the scan for an updated policy, with
  // the queue it found and the number of evaluations at its start, or a run of
  // the periodic drain; and how often others had acted when it began.
  datatype Scan =
    | PolicyScan(f: Filter, found: Found, until: int, from: nat, others: nat)
    | DrainRun(run: RetryDrain.Drain, others: nat)
  {
    function Filtering(): Option<Filter> {
      match this
      case PolicyScan(f, _, _, _, _) => Some(f)
      case DrainRun(_, _) => None
    }

    // The pass fetches nothing that becomes visible at this time or later.
    function Until(): int {
      match this
      case PolicyScan(_, _, until, _, _) => until
      case DrainRun(run, _) => run.until
    }
  }

  // The deliveries numbered from `d` on.
  predicate Owns(own: set<nat>, d: nat, k: nat) {
    forall x :: d <= x < d + k ==> x in own
  }

  /** The connection to the broker, and what goes on behind it. Before any
      request of this replica, ingest and other replicas may take any steps of
      the protocol, late acks and late requests may arrive, and time passes. */
  class Link {
    const env: Env
    var state: State
    // The deliveries that only this replica advances.
    var own: set<nat>
    // How often others took steps.
    ghost var others: nat
    // The messages that fetches returned, in order, and how many each did.
    ghost var fetched: seq<nat>
    ghost var batches: seq<nat>

    constructor (env: Env)
      ensures Valid() && this.env == env && state == INIT && own == {} && others == 0 && fetched == [] && batches == []
    {
      this.env, state, own, others, fetched, batches := env, INIT, {}, 0, [], [];
      new;
      GoesNowhere(env, {}, INIT);
    }

    // Everything that happened is a run of the protocol.
    ghost predicate Valid()
      reads this
    {
      Reachable(env, state)
    }

    function Now(): int
      reads this
    {
      state.clock
    }

    function Queue(): Broker
      reads this
    {
      state.broker
    }

    /** Others act and time passes, up to a time if one is given. */
    method Meanwhile(until: Option<int>)
      requires Valid() && (until.Some? ==> Now() < until.value)
      modifies this`state, this`others
      ensures Valid() && Goes(env, own, old(state), state) && others >= old(others)
      ensures others == old(others) ==> state == old(state).(clock := state.clock)
      ensures until.Some? ==> Now() < until.value
    {
      GoesNowhere(env, own, state);
      var run: seq<Step> := *;
      if Possible(env, state, run) {
        var after := After(env, state, run);
        if Undisturbed(own, state, after) && (until.None? || after.clock < until.value) {
          RunGoes(env, own, state, run);
          LeadsOn(env, INIT, state, after);
          state := after;
          others := others + 1;
        }
      }
      ghost var met := state;
      var elapsed: nat := *;
      if until.None? || state.clock + elapsed < until.value {
        state := Execute(env, state, Tick(elapsed));
        StepGoes(env, own, met, Tick(elapsed));
        GoesOn(env, own, old(state), met, state);
        LeadsOn(env, INIT, met, state);
      }
    }

    /** Makes the request that delivery `d` has come to. It may be answered, lose
        its answer, or not arrive in time. */
    method Ask(d: nat) returns (fate: Fate, ghost met: State)
      requires Valid() && d in own && d in state.deliveries && Asking(state.deliveries[d].pc)
      modifies this`state, this`others
      ensures Valid() && others >= old(others)
      ensures Asked(env, own, old(state), met, state, d, fate, others == old(others))
    {
      Meanwhile(None);
      met := state;
      if * {
        fate := Delivered;
      } else if * {
        fate := ReplyLost;
      } else {
        fate := Late;
      }
      state := Execute(env, state, Request(d, fate));
      StepLeads(env, met, Request(d, fate));
      LeadsOn(env, INIT, met, state);
    }

    method PublishSource(d: nat, id: SourceId, payload: string) returns (fate: Fate, ghost met: State)
      requires Valid() && d in own && d in state.deliveries && state.deliveries[d].pc.Republishing?
      requires id == Lineage(env.hash, state.deliveries[d].pc.dl) && payload == state.deliveries[d].pc.dl.payload
      modifies this`state, this`others
      ensures Valid() && others >= old(others)
      ensures Asked(env, own, old(state), met, state, d, fate, others == old(others))
      ensures Queue() == if fate == Late then met.broker else StoreSource(met.broker, id, payload)
    {
      fate, met := Ask(d);
    }

    method PublishDlq(d: nat, id: DlqId, dl: DeadLetter) returns (fate: Fate, ghost met: State)
      requires Valid() && d in own && d in state.deliveries && state.deliveries[d].pc.Recording?
      requires dl == Successor(env.setup.schedule, state.deliveries[d].pc.dl, state.deliveries[d].pc.now) && id == IdOf(env.hash, dl)
      modifies this`state, this`others
      ensures Valid() && others >= old(others)
      ensures Asked(env, own, old(state), met, state, d, fate, others == old(others))
      ensures Queue() == if fate == Late then met.broker else StoreDlq(met.broker, id, dl, met.clock)
    {
      fate, met := Ask(d);
    }

    method Ack(d: nat) returns (fate: Fate, ghost met: State)
      requires Valid() && d in own && d in state.deliveries && state.deliveries[d].pc == Acking
      modifies this`state, this`others
      ensures Valid() && others >= old(others)
      ensures Asked(env, own, old(state), met, state, d, fate, others == old(others))
      ensures Queue() == if fate == Late then met.broker
                         else met.broker.(acks := met.broker.acks + {old(state).deliveries[d].n})
    {
      fate, met := Ask(d);
    }

    method NakWithDelay(d: nat, delay: int) returns (fate: Fate, ghost met: State)
      requires Valid() && d in own && d in state.deliveries
      requires state.deliveries[d].pc == Deferring(delay) || (delay == 0 && state.deliveries[d].pc == Naking)
      modifies this`state, this`others
      ensures Valid() && others >= old(others)
      ensures Asked(env, own, old(state), met, state, d, fate, others == old(others))
      ensures Queue() == if fate == Late then met.broker else Delay(met.broker, old(state).deliveries[d].n, met.clock + delay)
    {
      fate, met := Ask(d);
    }

    /** The replica has read the policy's generation and decided about a fetched
        message. */
    method Settle(d: nat, filter: Option<Filter>, obs: Observed)
      requires Valid() && d in own && d in state.deliveries && state.deliveries[d].pc == Fetched
      requires state.deliveries[d].n < |Queue().log|
      modifies this`state
      ensures Valid() && Goes(env, own - {d}, old(state), state) && Queue() == old(Queue()) && Now() == old(Now())
      ensures var n := old(state).deliveries[d].n;
        d in state.deliveries && state.deliveries[d] == Delivery(n, Decide(env.setup, filter, old(Queue()).log[n], obs))
    {
      var msg := state.broker.log[state.deliveries[d].n];
      var name := if msg.Parsed? then msg.dl.policyName else "";
      state := Execute(env, state, SetGeneration(name, obs.generationAtStamp));
      ghost var s1 := state;
      StepGoes(env, own - {d}, old(state), SetGeneration(name, obs.generationAtStamp));
      state := Execute(env, state, Judge(d, filter, obs));
      StepGoes(env, own - {d}, s1, Judge(d, filter, obs));
      GoesOn(env, own - {d}, old(state), s1, state);
      LeadsOn(env, INIT, old(state), state);
    }

    /** Acks on their way may arrive. */
    method AcksArrive() returns (ghost arrived: set<nat>)
      requires Valid()
      modifies this`state
      ensures Valid() && Goes(env, own, old(state), state) && arrived <= old(Queue()).acks
      ensures state == old(state).(broker := old(Queue()).(pending := old(Queue()).pending - arrived))
    {
      var due: set<nat> := *;
      var settled := due * state.broker.acks;
      arrived := settled;
      ghost var s := AcksLead(env, state, arrived);
      state := state.(broker := state.broker.(pending := state.broker.pending - settled));
      assert state == s;
      LeadsOn(env, INIT, old(state), state);
    }

    /** Some time passes, so that it is after `from` and before `until`. */
    method Wait(from: int, until: int)
      requires Valid() && from <= Now() < until && from + 1 < until
      modifies this`state
      ensures Valid() && Goes(env, own, old(state), state) && from < Now() < until
      ensures state == old(state).(clock := Now())
    {
      var elapsed := until - 1 - state.clock;
      var less: int := *;
      if 0 < less < elapsed {
        elapsed := less;
      }
      StepGoes(env, own, state, Tick(elapsed));
      state := Execute(env, state, Tick(elapsed));
      LeadsOn(env, INIT, old(state), state);
    }

    /** Waits up to the fetch timeout for up to `batchSize` visible messages, and
        starts a delivery of each. */
    method Fetch(batchSize: nat) returns (msgs: seq<nat>, d: nat, ghost met: State, ghost arrived: set<nat>)
      requires Valid()
      modifies this
      ensures Valid() && Goes(env, old(own), old(state), state) && others >= old(others)
      ensures Goes(env, old(own), old(state), met) && (others == old(others) ==> met == old(state).(clock := met.clock))
      ensures old(Now()) < Now() < old(Now()) + 5_000_000_000
      ensures old(own) <= own && Owns(own, d, |msgs|) && HoldingAll(state, d, msgs)
      ensures arrived <= met.broker.acks && Distinct(msgs) && |msgs| <= batchSize
      ensures Queue() == Hide(met.broker.(pending := met.broker.pending - arrived), msgs, Now() + 60_000_000_000)
      ensures forall m :: m in msgs ==> m in met.broker.pending && m !in arrived && met.broker.pending[m] <= Now()
      ensures fetched == old(fetched) + msgs && batches == old(batches) + [|msgs|]
    {
      var bound := state.clock + FETCH_WAIT;
      Meanwhile(Some(bound));
      met := state;
      arrived := AcksArrive();
      GoesOn(env, own, old(state), met, state);
      ghost var s1 := state;
      Wait(bound - FETCH_WAIT, bound);
      GoesOn(env, own, old(state), s1, state);
      ghost var s2 := state;
      msgs, d := HandOut(batchSize);
      fetched, batches := fetched + msgs, batches + [|msgs|];
      GoesOn(env, old(own), old(state), s2, state);
    }

    /** Starts deliveries of up to `batchSize` visible messages, numbered from `d`. */
    method HandOut(batchSize: nat) returns (msgs: seq<nat>, d: nat)
      requires Valid()
      modifies this`state, this`own
      ensures Valid() && Goes(env, old(own), old(state), state) && Now() == old(Now())
      ensures old(own) <= own && Owns(own, d, |msgs|) && HoldingAll(state, d, msgs)
      ensures Distinct(msgs) && |msgs| <= batchSize && Queue() == Hide(old(Queue()), msgs, Now() + ACK_WAIT)
      ensures forall m :: m in msgs ==> m in old(Queue()).pending && old(Queue()).pending[m] <= Now()
    {
      ghost var above := AboveAll(state.deliveries.Keys);
      assert Tops(state.deliveries, above);
      d :| Tops(state.deliveries, d);
      msgs := [];
      var visible := set m | m in state.broker.pending && state.broker.pending[m] <= state.clock;
      GoesNowhere(env, own, state);
      while |msgs| < batchSize && visible != {}
        invariant Valid() && HandedOut(env, old(own), old(state), state, d, msgs) && old(own) <= own
        invariant |msgs| <= batchSize && Distinct(msgs) && Owns(own, d, |msgs|)
        invariant forall m :: m in visible ==> m in old(Queue()).pending && m !in msgs && old(Queue()).pending[m] <= Now()
        invariant forall m :: m in msgs ==> m in old(Queue()).pending && old(Queue()).pending[m] <= Now()
        decreases |visible|
      {
        if * {
          break;
        }
        var m :| m in visible;
        visible := visible - {m};
        HandOne(d, msgs, m, old(own), old(state));
        msgs := msgs + [m];
      }
    }

    method HandOne(d: nat, msgs: seq<nat>, m: nat, ghost own0: set<nat>, ghost s0: State)
      requires Valid() && HandedOut(env, own0, s0, state, d, msgs)
      requires m !in msgs && m in s0.broker.pending && s0.broker.pending[m] <= s0.clock
      modifies this`state, this`own
      ensures Valid() && HandedOut(env, own0, s0, state, d, msgs + [m]) && own == old(own) + {d + |msgs|}
    {
      HandOutOne(env, own0, s0, state, d, msgs, m);
      StepLeads(env, state, RetryProtocol.Fetch(d + |msgs|, m));
      state := Execute(env, state, RetryProtocol.Fetch(d + |msgs|, m));
      LeadsOn(env, INIT, old(state), state);
      own := own + {d + |msgs|};
    }
  }

  class Controller {
    const enabled: bool
    const setup: Setup
    const batchSize: nat
    // A policy listed here stays in the cache at this generation or later.
    const generationFloor: map<string, int>
    const link: Link

    var retrySub: bool
    var activeRetries: set<string>
    // The messages handed to the evaluator, in order.
    var evaluated: seq<nat>
    ghost var handled: seq<Handling>

    constructor (enabled: bool, setup: Setup, batchSize: nat, generationFloor: map<string, int>, link: Link)
      requires link.Valid() && link.env.setup == setup
      ensures Valid() && Accounted() && handled == [] && evaluated == [] && activeRetries == {} && !retrySub
      ensures link.fetched == [] ==> CaughtUp()
      ensures this.enabled == enabled && this.setup == setup && this.batchSize == batchSize
      ensures this.generationFloor == generationFloor && this.link == link
    {
      this.enabled, this.setup, this.batchSize := enabled, setup, batchSize;
      this.generationFloor, this.link := generationFloor, link;
      retrySub, activeRetries, evaluated, handled := false, {}, [], [];
    }

    ghost predicate Valid()
      reads this`handled, link
    {
      && link.Valid() && link.env.setup == setup
      && (forall h :: h in handled ==> Proper(setup, h))
    }

    // The evaluator saw the due audit events among the handled messages, each
    // time in order.
    ghost predicate Accounted()
      reads this`handled, this`evaluated
    {
      evaluated == ExaminedIn(setup, handled)
    }

    // Every fetched message has been handled, in order.
    ghost predicate CaughtUp()
      reads this`handled, link`fetched
    {
      |handled| == |link.fetched| && forall i :: 0 <= i < |handled| ==> handled[i].n == link.fetched[i]
    }

    // The last of the fetches since there were `since` of them found nothing, or
    // the consumer cannot be bound.
    ghost predicate FoundNothing(since: nat)
      reads this`retrySub, link`batches
    {
      !retrySub || (|link.batches| > since && link.batches[|link.batches| - 1] == 0)
    }

    // What the protocol guarantees holds of the queue this replica works on,
    // whatever others do to it.
    lemma Sound()
      requires Valid()
      ensures BrokerInv(link.env.hash, link.Queue())
      ensures forall m :: m in link.Queue().pending ==> m < |link.Queue().log|
      ensures forall d :: d in link.state.deliveries ==> link.state.deliveries[d].n < |link.Queue().log|
      ensures forall i {:trigger Kept(link.Queue(), i)} ::
        IsEvent(link.Queue(), i) && ClashFree(link.env.hash, link.Queue(), i) ==> Kept(link.Queue(), i)
    {
      var env, b := link.env, link.Queue();
      ReachableInv(env, link.state);
      forall i | IsEvent(b, i) && ClashFree(env.hash, b, i) ensures Kept(b, i) {
        NoDeadLetterLost(env, link.state, i);
      }
      assert forall d :: d in link.state.deliveries ==> DeliveryInv(env.hash, b, link.state.deliveries[d]);
    }

    method PolicyGeneration(name: string) returns (generation: int)
      ensures name in generationFloor ==> generation >= generationFloor[name]
    {
      generation := *;
      if name in generationFloor && generation < generationFloor[name] {
        generation := generationFloor[name];
      }
    }

    method Evaluate(n: nat) returns (resolved: bool)
      modifies this`evaluated
      ensures evaluated == old(evaluated) + [n]
    {
      evaluated := evaluated + [n];
      resolved := *;
    }

    // Delivery `d` of message `n` is this replica's and has come to `pc`.
    ghost predicate At(d: nat, n: nat, pc: Pc)
      reads link
    {
      d in link.own && d in link.state.deliveries && link.state.deliveries[d] == Delivery(n, pc)
    }

    /** Advances the retry metadata of a failed event and stores it again. */
    method UpdateAndRepublishMetadata(d: nat, ghost n: nat, dl: DeadLetter, now: int) returns (fate: Fate, ghost met: State)
      requires Valid() && At(d, n, Recording(dl, now))
      modifies link`state, link`others
      ensures Valid() && link.others >= old(link.others)
      ensures Asked(link.env, link.own, old(link.state), met, link.state, d, fate, link.others == old(link.others))
      ensures link.Queue() == if fate == Late then met.broker
                              else Perform(link.env.hash, setup.schedule, met.broker, n, Recording(dl, now), met.clock)
    {
      var event := dl;
      event := event.(retryCount := event.retryCount + 1);
      event := event.(lastRetryAt := Some(Stored(now)));
      var backoff := CalculateBackoff(setup.schedule, event.retryCount);
      event := event.(nextRetryAfter := Some(Stored(now + backoff)));
      assert event == Successor(setup.schedule, dl, now);
      fate, met := link.PublishDlq(d, IdOf(link.env.hash, event), event);
    }

    /** Makes the last request for a message. */
    method Finish(d: nat, ghost n: nat, pc: Pc) returns (ghost path: seq<Exchange>)
      requires Valid() && At(d, n, pc) && (pc == Acking || pc == Naking || pc.Deferring?)
      modifies link`state, link`others
      ensures Valid() && link.others >= old(link.others) && |path| == 1
      ensures Walked(link.env, link.own, old(link.state), link.state, d, n, pc, path, link.others == old(link.others))
    {
      var fate;
      ghost var met;
      if pc == Acking {
        fate, met := link.Ack(d);
      } else {
        fate, met := link.NakWithDelay(d, if pc.Deferring? then pc.delay else 0);
      }
      ghost var alone := link.others == old(link.others);
      AskedGoes(link.env, link.own, old(link.state), met, link.state, d, fate, alone);
      WalkedDone(link.env, link.own, link.state, d, n);
      path := WalkedOn(link.env, link.own, old(link.state), met, link.state, link.state, d, fate, [], alone, true);
    }

    /** Stores the failed event again; acks the old message only if that was
        confirmed, and otherwise asks for it back. */
    method RecordFailure(d: nat, ghost n: nat, dl: DeadLetter, now: int) returns (ghost path: seq<Exchange>)
      requires Valid() && At(d, n, Recording(dl, now))
      modifies link`state, link`others
      ensures Valid() && link.others >= old(link.others)
      ensures Walked(link.env, link.own, old(link.state), link.state, d, n, Recording(dl, now), path, link.others == old(link.others))
      ensures |path| == 2 && path[1].pc == if path[0].fate == Delivered then Acking else Naking
    {
      var fate;
      ghost var met;
      fate, met := UpdateAndRepublishMetadata(d, n, dl, now);
      ghost var s1, others := link.state, link.others;
      AskedGoes(link.env, link.own, old(link.state), met, s1, d, fate, others == old(link.others));
      ghost var rest := Finish(d, n, if fate == Delivered then Acking else Naking);
      path := WalkedOn(link.env, link.own, old(link.state), met, s1, link.state, d, fate, rest,
                       others == old(link.others), link.others == others);
    }

    /** Puts the event back on its source stream, falling back to recording the
        failure when that is not confirmed. */
    method Republish(d: nat, ghost n: nat, dl: DeadLetter, now: int) returns (accepted: bool, ghost path: seq<Exchange>)
      requires Valid() && At(d, n, Republishing(dl, now))
      modifies link`state, link`others
      ensures Valid() && link.others >= old(link.others)
      ensures Walked(link.env, link.own, old(link.state), link.state, d, n, Republishing(dl, now), path,
                     link.others == old(link.others))
      ensures path != [] && (accepted <==> path[0].fate == Delivered)
    {
      var fate;
      ghost var met;
      fate, met := link.PublishSource(d, Lineage(link.env.hash, dl), dl.payload);
      accepted := fate == Delivered;
      ghost var s1, others := link.state, link.others;
      AskedGoes(link.env, link.own, old(link.state), met, s1, d, fate, others == old(link.others));
      ghost var rest;
      if fate != Delivered {
        rest := RecordFailure(d, n, dl, now);
      } else {
        rest := Finish(d, n, Acking);
      }
      path := WalkedOn(link.env, link.own, old(link.state), met, s1, link.state, d, fate, rest,
                       others == old(link.others), link.others == others);
    }

    /** Re-evaluates an audit event in place and retries or records it. */
    method Try(d: nat, n: nat, dl: DeadLetter, filter: Option<Filter>, obs: Observed)
        returns (outcome: Outcome, resolved: bool, ghost path: seq<Exchange>)
      requires Valid() && At(d, n, Fetched) && n < |link.Queue().log| && link.Queue().log[n] == Parsed(dl)
      requires if filter.Some? then Matches(filter.value, dl) else Eligible(setup, dl, obs)
      modifies this`evaluated, link`state, link`others
      ensures Valid() && link.others >= old(link.others) && path != []
      ensures Walked(link.env, link.own, old(link.state), link.state, d, n, Attempt(setup, dl, obs.(resolved := resolved)), path,
                     link.others == old(link.others))
      ensures outcome == if path[0].pc.Republishing? && path[0].fate == Delivered then Succeeded else Failed
      ensures if Evaluates(setup, dl) then evaluated == old(evaluated) + [n] else evaluated == old(evaluated)
    {
      var event := Stamp(setup, dl, obs.generationAtStamp);
      resolved := true;
      if Evaluates(setup, event) {
        resolved := Evaluate(n);
      }
      var full := obs.(resolved := resolved);
      link.Settle(d, filter, full);
      ghost var s1 := link.state;
      if !resolved || event.eventType.OtherType? {
        path := RecordFailure(d, n, event, obs.now);
        outcome := Failed;
      } else {
        var accepted;
        accepted, path := Republish(d, n, event, obs.now);
        outcome := if accepted then Succeeded else Failed;
      }
      WalkedFrom(link.env, link.own, old(link.state), s1, link.state, d, n, Attempt(setup, dl, full), path,
                 link.others == old(link.others));
    }

    /** Reads what the decision about an event depends on; `skip` is the delay
        after which an event that is not retried now should come back. */
    method Screen(dl: DeadLetter, filter: Option<Filter>, now: int) returns (obs: Observed, skip: Option<int>)
      ensures obs.now == now && obs.clock == link.Now()
      ensures dl.policyName in generationFloor ==> obs.generationAtStamp >= generationFloor[dl.policyName]
      ensures forall resolved ::
        var full := obs.(resolved := resolved);
        Decide(setup, filter, Parsed(dl), full) == if skip.Some? then Deferring(skip.value) else Attempt(setup, dl, full)
      ensures skip.None? <==> if filter.Some? then Matches(filter.value, dl) else Eligible(setup, dl, obs)
    {
      var checked := PolicyGeneration(dl.policyName);
      var stamped := PolicyGeneration(dl.policyName);
      obs := Observed(now, link.Now(), checked, stamped, false);
      skip := None;
      if filter.Some? {
        if !Matches(filter.value, dl) {
          skip := Some(POLICY_SKIP_DELAY);
        }
      } else if !Eligible(setup, dl, obs) {
        skip := Some(DeferralDelay(setup.schedule, dl.nextRetryAfter, obs.clock));
      }
    }

    // The handling of a message that began at the given state; `alone` if nobody
    // else acted meanwhile.
    ghost predicate Describes(h: Handling, s0: State, evaluated0: seq<nat>, outcome: Outcome, alone: bool)
      requires h.n < |s0.broker.log|
      reads this`evaluated, link
    {
      && h.msg == s0.broker.log[h.n] && Proper(setup, h) && outcome == OutcomeOf(setup, h) && h.obs.clock == s0.clock
      && (alone ==> link.Queue() == Replay(link.env.hash, setup.schedule, s0.broker, h.n, h.path))
      && Timely(s0.clock, h.path) && (forall x :: x in h.path ==> x.at <= link.Now())
      && (if Attempts(setup, h) && Evaluates(setup, h.msg.dl) then evaluated == evaluated0 + [h.n] else evaluated == evaluated0)
      && (h.msg.Parsed? && h.msg.dl.policyName in generationFloor ==>
            h.obs.generationAtStamp >= generationFloor[h.msg.dl.policyName])
    }

    /** Puts a message back, or drops one that does not parse. */
    method Dismiss(d: nat, n: nat, filter: Option<Filter>, obs: Observed) returns (ghost path: seq<Exchange>)
      requires Valid() && At(d, n, Fetched) && n < |link.Queue().log|
      requires Decide(setup, filter, link.Queue().log[n], obs).Deferring? || Decide(setup, filter, link.Queue().log[n], obs) == Acking
      modifies link`state, link`others
      ensures Valid() && link.others >= old(link.others)
      ensures Walked(link.env, link.own, old(link.state), link.state, d, n, Decide(setup, filter, old(link.Queue()).log[n], obs), path,
                     link.others == old(link.others))
    {
      var pc := Decide(setup, filter, link.Queue().log[n], obs);
      link.Settle(d, filter, obs);
      ghost var s1 := link.state;
      path := Finish(d, n, pc);
      WalkedFrom(link.env, link.own, old(link.state), s1, link.state, d, n, pc, path, link.others == old(link.others));
    }

    /** Handles a message that parsed. */
    method HandleEvent(d: nat, n: nat, dl: DeadLetter, filter: Option<Filter>, now: int) returns (outcome: Outcome, ghost h: Handling)
      requires Valid() && At(d, n, Fetched) && n < |link.Queue().log| && link.Queue().log[n] == Parsed(dl)
      modifies this`evaluated, link`state, link`others
      ensures Valid() && link.others >= old(link.others)
      ensures h.n == n && h.filter == filter && h.obs.now == now
      ensures Goes(link.env, link.own - {d}, old(link.state), link.state) && At(d, n, Done)
      ensures Describes(h, old(link.state), old(evaluated), outcome, link.others == old(link.others))
    {
      var obs, skip := Screen(dl, filter, now);
      if skip.Some? {
        ghost var path := Dismiss(d, n, filter, obs);
        outcome := Skipped;
        h := Handling(n, Parsed(dl), filter, obs, path);
        assert !Attempts(setup, h);
      } else {
        var resolved;
        ghost var path;
        outcome, resolved, path := Try(d, n, dl, filter, obs);
        h := Handling(n, Parsed(dl), filter, obs.(resolved := resolved), path);
        assert Attempts(setup, h);
      }
    }

    // The queue holds one message more, the record of the handled event's failure.
    ghost predicate Stores(h: Handling, before: Broker)
      reads link
    {
      && h.msg.Parsed? && |link.Queue().log| == |before.log| + 1 && before.log <= link.Queue().log
      && link.Queue().log[|before.log|].Parsed?
      && IsRecord(setup, h.msg.dl, h.obs.now, h.obs.generationAtStamp, link.Queue().log[|before.log|].dl)
    }

    /** One iteration of the batch loop. */
    method HandleMessage(d: nat, n: nat, filter: Option<Filter>, now: int) returns (outcome: Outcome)
      requires Valid() && Accounted() && At(d, n, Fetched) && n < |link.Queue().log|
      modifies this`evaluated, this`handled, link`state, link`others
      ensures Valid() && Accounted() && link.others >= old(link.others)
      ensures Goes(link.env, link.own - {d}, old(link.state), link.state) && At(d, n, Done)
      ensures |handled| == |old(handled)| + 1 && handled[..|old(handled)|] == old(handled)
      ensures var h := handled[|old(handled)|];
        && h.n == n && h.filter == filter && h.obs.now == now
        && Describes(h, old(link.state), old(evaluated), outcome, link.others == old(link.others))
      // What it stores, if nobody else acts, is the record of this event's failure
      // under the generation it read.
      ensures link.others == old(link.others) && |link.Queue().log| != |old(link.Queue()).log| ==>
        Stores(handled[|old(handled)|], old(link.Queue()))
    {
      var msg := link.Queue().log[n];
      ghost var h;
      if msg.Parsed? {
        outcome, h := HandleEvent(d, n, msg.dl, filter, now);
      } else {
        var obs := Observed(now, link.Now(), 0, 0, false);
        ghost var path := Dismiss(d, n, filter, obs);
        outcome := Failed;
        h := Handling(n, msg, filter, obs, path);
      }
      ExaminedNext(setup, handled, h);
      HandlingRecords(link.env.hash, setup, old(link.Queue()), h);
      handled := handled + [h];
    }

    // A scan for this filter can rely on the cache holding the policy.
    predicate InContext(f: Filter) {
      && f.policyName != "" && f.maxPolicyVersion > 0 && setup.hasGeneration
      && f.policyName in generationFloor && generationFloor[f.policyName] >= f.maxPolicyVersion
    }

    // Metadata updates succeed, and in a drain the policies do not change.
    predicate Calm(scan: Scan, h: Handling) {
      NoPlainNak(h.path) && (scan.DrainRun? ==> RetryDrain.FixedGeneration(scan.run, h))
    }

    // So it was since the controller had handled `from` messages, and nobody else
    // has acted since the pass began.
    ghost predicate CalmSince(scan: Scan, from: nat)
      reads this`handled, link`others
    {
      link.others == scan.others && forall i :: from <= i < |handled| ==> Calm(scan, handled[i])
    }

    // The pass is under way, between two batches.
    ghost predicate ScanHolds(scan: Scan)
      reads this`evaluated, link
    {
      link.others == scan.others &&
      match scan
      case PolicyScan(f, found, until, from, _) =>
        && InContext(f) && from <= |evaluated| && Distinct(evaluated[from..])
        && ScanState(link.Queue(), found, f, until, set m | m in evaluated[from..])
        && link.Now() + POLICY_SKIP_DELAY >= until
      case DrainRun(run, _) =>
        RetryDrain.Spaced(setup.schedule, run.gap) && run.start <= link.Now()
    }

    // A bound on the messages that the pass can still handle.
    function Left(scan: Scan, b: Broker): nat {
      match scan
      case PolicyScan(f, _, until, _, _) => Total(b, f, until, |b.log|)
      case DrainRun(run, _) => if run.gap > 0 then RetryDrain.Left(setup, run, b) else 0
    }

    method BindRetryConsumer() returns (bound: bool)
      modifies this`retrySub
      ensures bound == retrySub && (old(retrySub) ==> retrySub)
    {
      if !retrySub {
        retrySub := *;
      }
      bound := retrySub;
    }

    // A batch of the pass, after `i` of its messages were handled.
    ghost predicate BatchScanHolds(scan: Scan, now: int, msgs: seq<nat>, i: nat, budget: nat)
      reads this`evaluated, link
    {
      link.others == scan.others &&
      match scan
      case PolicyScan(f, found, until, from, _) =>
        && from <= |evaluated| && InContext(f)
        && BatchHolds(link.Queue(), f, found, until, evaluated[from..], msgs, i, budget)
        && link.Now() + POLICY_SKIP_DELAY >= until
      case DrainRun(run, _) =>
        RetryDrain.DrainHolds(setup, link.Queue(), run, now, msgs, i, budget) && now <= link.Now()
    }

    // One delivery of this replica for each fetched message, numbered from `d`.
    ghost predicate InHand(d: nat, msgs: seq<nat>, i: nat)
      reads link
    {
      && i <= |msgs| && Owns(link.own, d + i, |msgs| - i)
      && forall k {:trigger msgs[k]} :: i <= k < |msgs| ==> Holding(link.state, d + k, msgs[k])
    }

    /** Handles the fetched messages in turn. The ghost parameters name the pass
        the batch belongs to. */
    method HandleBatch(msgs: seq<nat>, filter: Option<Filter>, now: int, d: nat, ghost scan: Scan, ghost budget: nat)
        returns (succeeded: nat, failed: nat)
      requires filter == scan.Filtering() && scan.others <= link.others
      requires Valid() && Accounted() && Distinct(msgs) && InHand(d, msgs, 0)
      requires forall m :: m in msgs ==> m < |link.Queue().log|
      modifies this`evaluated, this`handled, link`state, link`others
      ensures Valid() && Accounted() && Goes(link.env, {}, old(link.state), link.state) && link.others >= old(link.others)
      ensures |handled| == |old(handled)| + |msgs| && handled[..|old(handled)|] == old(handled)
      ensures InTurn(handled[|old(handled)|..], msgs, filter, now)
      ensures succeeded == CountOutcome(setup, handled[|old(handled)|..], Succeeded)
      ensures failed == CountOutcome(setup, handled[|old(handled)|..], Failed)
      ensures |old(evaluated)| <= |evaluated| && evaluated[..|old(evaluated)|] == old(evaluated)
      ensures old(BatchScanHolds(scan, now, msgs, 0, budget)) && CalmSince(scan, |old(handled)|) ==>
        BatchScanHolds(scan, now, msgs, |msgs|, budget)
    {
      succeeded, failed := 0, 0;
      assert handled[|handled|..] == [] && msgs[..0] == [];
      ghost var held := BatchScanHolds(scan, now, msgs, 0, budget);
      GoesNowhere(link.env, {}, link.state);
      for i := 0 to |msgs|
        invariant Valid() && Accounted() && Goes(link.env, {}, old(link.state), link.state) && link.others >= old(link.others)
        invariant BatchSoFar(old(handled), old(evaluated), msgs, i, filter, now, d, scan, budget, held, succeeded, failed)
      {
        ghost var s1 := link.state;
        var outcome := HandleNext(msgs, i, filter, now, d, scan, budget, old(handled), old(evaluated), held, succeeded, failed);
        GoesOn(link.env, {}, old(link.state), s1, link.state);
        match outcome {
          case Succeeded => succeeded := succeeded + 1;
          case Failed => failed := failed + 1;
          case Skipped =>
        }
      }
      assert msgs[..|msgs|] == msgs;
    }

    // The batch after `i` of its messages, for a replica that came to it with
    // the given history; `held` if the pass was within its bound then.
    ghost predicate BatchSoFar(history: seq<Handling>, evaluated0: seq<nat>, msgs: seq<nat>, i: nat, filter: Option<Filter>,
                               now: int, d: nat, scan: Scan, budget: nat, held: bool, succeeded: nat, failed: nat)
      reads this`handled, this`evaluated, link
    {
      && i <= |msgs| && |handled| == |history| + i && handled[..|history|] == history
      && Tally(setup, handled[|history|..], msgs[..i], filter, now, succeeded, failed)
      && |evaluated0| <= |evaluated| && evaluated[..|evaluated0|] == evaluated0
      && (forall m :: m in msgs ==> m < |link.Queue().log|)
      && InHand(d, msgs, i) && scan.others <= link.others
      && (held && CalmSince(scan, |history|) ==> BatchScanHolds(scan, now, msgs, i, budget))
    }

    /** The body of the batch loop. */
    method HandleNext(msgs: seq<nat>, i: nat, filter: Option<Filter>, now: int, d: nat, ghost scan: Scan, ghost budget: nat,
                      ghost history: seq<Handling>, ghost evaluated0: seq<nat>, ghost held: bool,
                      ghost succeeded: nat, ghost failed: nat) returns (outcome: Outcome)
      requires filter == scan.Filtering() && Valid() && Accounted() && Distinct(msgs) && i < |msgs|
      requires BatchSoFar(history, evaluated0, msgs, i, filter, now, d, scan, budget, held, succeeded, failed)
      modifies this`evaluated, this`handled, link`state, link`others
      ensures Valid() && Accounted() && Goes(link.env, {}, old(link.state), link.state) && link.others >= old(link.others)
      ensures BatchSoFar(history, evaluated0, msgs, i + 1, filter, now, d, scan, budget, held,
                         if outcome == Succeeded then succeeded + 1 else succeeded, if outcome == Failed then failed + 1 else failed)
    {
      assert msgs[i] in msgs;
      outcome := HandleInScan(msgs, i, filter, now, d, scan, budget);
      Extended(old(handled), handled, |history|);
      TallyNext(setup, old(handled)[|history|..], handled[|old(handled)|..], msgs, i, filter, now, succeeded, failed);
    }

    /** Handles message `i` of a batch. */
    method HandleInScan(msgs: seq<nat>, i: nat, filter: Option<Filter>, now: int, d: nat,
                        ghost scan: Scan, ghost budget: nat) returns (outcome: Outcome)
      requires filter == scan.Filtering() && scan.others <= link.others
      requires Valid() && Accounted() && Distinct(msgs) && i < |msgs| && msgs[i] < |link.Queue().log| && InHand(d, msgs, i)
      modifies this`evaluated, this`handled, link`state, link`others
      ensures Valid() && Accounted() && Goes(link.env, {}, old(link.state), link.state) && link.others >= old(link.others)
      ensures InHand(d, msgs, i + 1)
      ensures |handled| == |old(handled)| + 1 && handled[..|old(handled)|] == old(handled)
      ensures var h := handled[|old(handled)|];
              h.n == msgs[i] && h.filter == filter && h.obs.now == now && outcome == OutcomeOf(setup, h)
      ensures |old(evaluated)| <= |evaluated| && evaluated[..|old(evaluated)|] == old(evaluated)
      ensures old(BatchScanHolds(scan, now, msgs, i, budget)) && link.others == scan.others && Calm(scan, handled[|old(handled)|]) ==>
        BatchScanHolds(scan, now, msgs, i + 1, budget)
    {
      assert Holding(link.state, d + i, msgs[i]);
      outcome := HandleMessage(d + i, msgs[i], filter, now);
      ghost var h := handled[|old(handled)|];
      if old(BatchScanHolds(scan, now, msgs, i, budget)) && link.others == scan.others && Calm(scan, h) {
        TimelyFrom(old(link.Now()), h.path);
        match scan {
          case PolicyScan(f, found, until, from, _) =>
            BatchStep(link.env.hash, setup, old(link.Queue()), h, f, found, until, old(evaluated)[from..], msgs, i, budget);
            assert evaluated[from..] == old(evaluated)[from..] + evaluated[|old(evaluated)|..];
          case DrainRun(run, _) =>
            RetryDrain.DrainStep(link.env.hash, setup, old(link.Queue()), h, run, now, msgs, i, budget);
        }
      }
    }

    /** Fetches the next batch of a pass. */
    method FetchBatch(ghost scan: Scan) returns (msgs: seq<nat>, d: nat)
      requires Valid() && scan.others <= link.others
      modifies link
      ensures Valid() && Goes(link.env, {}, old(link.state), link.state) && link.others >= old(link.others)
      ensures link.Now() > old(link.Now())
      ensures Distinct(msgs) && |msgs| <= batchSize && InHand(d, msgs, 0)
      ensures link.fetched == old(link.fetched) + msgs && link.batches == old(link.batches) + [|msgs|]
      ensures forall m :: m in msgs ==> m < |link.Queue().log|
      ensures old(ScanHolds(scan)) && old(link.Now()) + FETCH_WAIT <= scan.Until() && link.others == scan.others ==>
        BatchScanHolds(scan, link.Now(), msgs, 0, Left(scan, old(link.Queue())))
    {
      Sound();
      ghost var met, arrived;
      msgs, d, met, arrived := link.Fetch(batchSize);
      FetchShows(met.broker, link.Queue(), arrived, msgs, link.Now());
      Sound();
      if old(ScanHolds(scan)) && old(link.Now()) + FETCH_WAIT <= scan.Until() && link.others == scan.others {
        match scan {
          case PolicyScan(f, found, until, from, _) =>
            BatchFetched(met.broker, link.Queue(), f, until, found, evaluated[from..], msgs, old(link.Now()), link.Now());
          case DrainRun(run, _) =>
            RetryDrain.DrainFetch(setup, met.broker, link.Queue(), run, link.Now(), msgs);
        }
      }
    }

    /** Fetches and handles one batch. */
    method ProcessRetryBatch(filter: Option<Filter>, ghost scan: Scan)
        returns (processed: nat, succeeded: nat, failed: nat)
      requires Valid() && Accounted() && CaughtUp() && filter == scan.Filtering() && scan.others <= link.others
      modifies this`retrySub, this`evaluated, this`handled, link
      ensures CaughtUp() && link.batches == if retrySub then old(link.batches) + [processed] else old(link.batches)
      ensures !retrySub ==> processed == 0
      ensures Valid() && Accounted() && Goes(link.env, {}, old(link.state), link.state) && link.others >= old(link.others)
      ensures processed > 0 ==> link.Now() > old(link.Now())
      ensures |handled| == |old(handled)| + processed && handled[..|old(handled)|] == old(handled)
      ensures exists msgs, now :: InTurn(handled[|old(handled)|..], msgs, filter, now) && Distinct(msgs)
      ensures forall i :: |old(handled)| <= i < |handled| ==> handled[i].filter == filter
      ensures succeeded == CountOutcome(setup, handled[|old(handled)|..], Succeeded)
      ensures failed == CountOutcome(setup, handled[|old(handled)|..], Failed)
      ensures processed <= batchSize
      ensures |old(evaluated)| <= |evaluated| && evaluated[..|old(evaluated)|] == old(evaluated)
      ensures old(ScanHolds(scan)) && old(link.Now()) + FETCH_WAIT <= scan.Until() && CalmSince(scan, |old(handled)|) ==>
        ScanHolds(scan) && processed + Left(scan, link.Queue()) <= Left(scan, old(link.Queue()))
    {
      processed, succeeded, failed := 0, 0, 0;
      var bound := BindRetryConsumer();
      assert handled[|handled|..] == [];
      if !bound {
        assert InTurn([], [], filter, link.Now());
        GoesNowhere(link.env, {}, link.state);
        return;
      }
      var msgs, d := FetchBatch(scan);
      processed := |msgs|;
      ghost var now, s1 := link.Now(), link.state;
      succeeded, failed := HandleBatch(msgs, filter, link.Now(), d, scan, Left(scan, old(link.Queue())));
      GoesOn(link.env, {}, old(link.state), s1, link.state);
      InTurnNumbers(handled[|old(handled)|..], msgs, filter, now);
      InTurnUnder(handled[|old(handled)|..], msgs, filter, now);
      if scan.DrainRun? && BatchScanHolds(scan, now, msgs, |msgs|, Left(scan, old(link.Queue()))) {
        RetryDrain.DrainEnds(setup, link.Queue(), scan.run, now, msgs, Left(scan, old(link.Queue())));
      }
    }

    // A pass that found the given history and broker has handled `processed`
    // messages; if it `started` in its context, within its bound.
    ghost predicate Progress(scan: Scan, started: bool, history: seq<Handling>, b0: Broker, processed: nat)
      reads this`handled, this`evaluated, link
    {
      && |handled| == |history| + processed && handled[..|history|] == history
      && (started && CalmSince(scan, |history|) ==> ScanHolds(scan) && processed + Left(scan, link.Queue()) <= Left(scan, b0))
    }

    // The outcomes of everything handled since the given history.
    ghost predicate Counted(history: seq<Handling>, succeeded: nat, failed: nat)
      reads this`handled
    {
      && |history| <= |handled|
      && succeeded == CountOutcome(setup, handled[|history|..], Succeeded)
      && failed == CountOutcome(setup, handled[|history|..], Failed)
    }

    // Everything handled since the given history was handled under this filter.
    ghost predicate AllUnder(history: seq<Handling>, filter: Option<Filter>)
      reads this`handled
    {
      forall i :: |history| <= i < |handled| ==> handled[i].filter == filter
    }

    /** The body of either loop: one more batch, added to the totals. */
    method NextBatch(filter: Option<Filter>, processed: nat, succeeded: nat, failed: nat,
                     ghost scan: Scan, ghost started: bool, ghost history: seq<Handling>, ghost b0: Broker)
        returns (p: nat, processed': nat, succeeded': nat, failed': nat)
      requires Valid() && Accounted() && filter == scan.Filtering() && link.Now() + FETCH_WAIT <= scan.Until() && scan.others <= link.others
      requires Progress(scan, started, history, b0, processed) && Counted(history, succeeded, failed) && AllUnder(history, filter)
      requires CaughtUp()
      modifies this`retrySub, this`evaluated, this`handled, link
      ensures AllUnder(history, filter) && CaughtUp() && |link.batches| >= |old(link.batches)|
      ensures p == 0 ==> FoundNothing(|old(link.batches)|)
      ensures Valid() && Accounted() && Goes(link.env, {}, old(link.state), link.state) && link.others >= old(link.others)
      ensures (p > 0 ==> link.Now() > old(link.Now())) && processed' == processed + p
      ensures Progress(scan, started, history, b0, processed') && Counted(history, succeeded', failed')
      ensures |old(evaluated)| <= |evaluated| && evaluated[..|old(evaluated)|] == old(evaluated)
    {
      var s, d;
      p, s, d := ProcessRetryBatch(filter, scan);
      assert forall k :: |history| <= k < |old(handled)| ==> handled[k] == old(handled)[k];
      assert CalmSince(scan, |history|) ==> old(CalmSince(scan, |history|)) && CalmSince(scan, |old(handled)|);
      CountConcat(setup, old(handled)[|history|..], handled[|old(handled)|..], Succeeded);
      CountConcat(setup, old(handled)[|history|..], handled[|old(handled)|..], Failed);
      Extended(old(handled), handled, |history|);
      processed', succeeded', failed' := processed + p, succeeded + s, failed + d;
    }

    // Metadata updates succeeded, so that no plain NAK was sent, and nobody else
    // acted since the given moment.
    ghost predicate LeftAlone(history: seq<Handling>, others0: nat)
      reads this`handled, link`others
    {
      link.others == others0 && forall i :: |history| <= i < |handled| ==> NoPlainNak(handled[i].path)
    }

    // What a scan for a policy promises, in its context and undisturbed: no
    // message is evaluated twice, none stored by the scan is, no event is if it was
    // queued once, and what was visible at the start bounds the number of messages
    // handled.
    ghost predicate ScanKept(f: Filter, history: seq<Handling>, evaluated0: seq<nat>, s0: State, others0: nat, processed: nat)
      reads this`handled, this`evaluated, link`others
    {
      && |history| <= |handled| && |evaluated0| <= |evaluated|
      && (InContext(f) && LeftAlone(history, others0) ==>
            && Distinct(evaluated[|evaluated0|..])
            && (forall m :: m in evaluated[|evaluated0|..] ==> m in s0.broker.pending && Wanted(s0.broker, f, m))
            && (QueuedOnce(link.env.hash, s0.broker, f) ==> OncePerLineage(link.env.hash, s0.broker, evaluated[|evaluated0|..]))
            && processed <= Total(s0.broker, f, s0.clock + POLICY_SKIP_DELAY, |s0.broker.log|))
    }

    /** The scan itself: batches until nothing comes back, the context ends,
        after as many batches as `patience` says, or the time is up. */
    method ScanForPolicy(f: Filter, patience: Option<nat>) returns (processed: nat, succeeded: nat, failed: nat)
      requires Valid() && Accounted() && CaughtUp()
      modifies this`retrySub, this`evaluated, this`handled, link
      ensures Valid() && Accounted() && Goes(link.env, {}, old(link.state), link.state) && AllUnder(old(handled), Some(f))
      ensures |handled| == |old(handled)| + processed && handled[..|old(handled)|] == old(handled)
      ensures Counted(old(handled), succeeded, failed)
      ensures |old(evaluated)| <= |evaluated| && evaluated[..|old(evaluated)|] == old(evaluated)
      ensures ScanKept(f, old(handled), old(evaluated), old(link.state), old(link.others), processed)
      ensures CaughtUp()
      ensures patience.None? ==> FoundNothing(|old(link.batches)|) || link.Now() > old(link.Now()) + 30_000_000_000
    {
      processed, succeeded, failed := 0, 0, 0;
      Sound();
      var rounds := 0;
      var runDeadline := link.Now() + MAX_POLICY_RUN;
      ghost var scan := PolicyScan(f, FoundIn(link.Queue()), link.Now() + POLICY_SKIP_DELAY, |evaluated|, link.others);
      assert handled[|handled|..] == [];
      assert evaluated[|evaluated|..] == [] && (set m | m in evaluated[|evaluated|..]) == {};
      GoesNowhere(link.env, {}, link.state);
      while link.Now() <= runDeadline
        invariant Valid() && Accounted() && Goes(link.env, {}, old(link.state), link.state) && old(link.others) <= link.others
        invariant AllUnder(old(handled), Some(f)) && CaughtUp() && |old(link.batches)| <= |link.batches|
        invariant |old(evaluated)| <= |evaluated| && evaluated[..|old(evaluated)|] == old(evaluated)
        invariant Progress(scan, InContext(f), old(handled), old(link.Queue()), processed)
        invariant Counted(old(handled), succeeded, failed)
        decreases runDeadline - link.Now()
      {
        if patience == Some(rounds) {
          break;
        }
        rounds := rounds + 1;
        ghost var s1 := link.state;
        var p;
        p, processed, succeeded, failed :=
          NextBatch(Some(f), processed, succeeded, failed, scan, InContext(f), old(handled), old(link.Queue()));
        GoesOn(link.env, {}, old(link.state), s1, link.state);
        if p == 0 {
          break;
        }
      }
      ScanConcludes(scan, old(handled), old(evaluated), old(link.state), processed);
    }

    // What a scan has kept when it stops, for the state in which it began.
    lemma ScanConcludes(scan: Scan, history: seq<Handling>, evaluated0: seq<nat>, s0: State, processed: nat)
      requires scan.PolicyScan? && scan.found == FoundIn(s0.broker) && scan.until == s0.clock + POLICY_SKIP_DELAY
      requires scan.from == |evaluated0| <= |evaluated| && s0.broker.log <= link.Queue().log
      requires Progress(scan, InContext(scan.f), history, s0.broker, processed)
      ensures ScanKept(scan.f, history, evaluated0, s0, scan.others, processed)
    {
      if ScanHolds(scan) {
        ScanEnds(s0.broker, link.Queue(), scan.f, scan.until, set m | m in evaluated[|evaluated0|..]);
        OnceEach(link.env.hash, s0.broker, scan.f, evaluated[|evaluated0|..]);
      }
    }

    /** Retries what failed on an older version of an updated policy. */
    method RetryForPolicy(policyName: string, generation: int, patience: Option<nat>)
        returns (processed: nat, succeeded: nat, failed: nat)
      requires Valid() && Accounted() && CaughtUp()
      modifies this, link
      ensures Valid() && Accounted() && Goes(link.env, {}, old(link.state), link.state) && activeRetries == old(activeRetries)
      // Disabled, or a retry for this policy is already under way: nothing happens.
      ensures !enabled || policyName in old(activeRetries) ==>
        processed == 0 && link.state == old(link.state) && handled == old(handled) && evaluated == old(evaluated)
      ensures |handled| == |old(handled)| + processed && handled[..|old(handled)|] == old(handled)
      ensures Counted(old(handled), succeeded, failed)
      ensures |old(evaluated)| <= |evaluated| && evaluated[..|old(evaluated)|] == old(evaluated)
      // Otherwise it goes on until a fetch finds nothing or half a minute is over,
      // and has then handled every fetched message.
      ensures enabled && policyName !in old(activeRetries) && patience.None? ==>
        FoundNothing(|old(link.batches)|) || link.Now() > old(link.Now()) + 30_000_000_000
      ensures CaughtUp()
      // What failed on an older version of the policy is retried, the rest is not.
      ensures forall i :: |old(handled)| <= i < |handled| ==> ServedFor(setup, handled[i], policyName, generation)
      ensures ScanKept(Filter(policyName, generation), old(handled), old(evaluated), old(link.state), old(link.others), processed)
    {
      processed, succeeded, failed := 0, 0, 0;
      assert handled[|handled|..] == [] && evaluated[|evaluated|..] == [];
      GoesNowhere(link.env, {}, link.state);
      if !enabled || policyName in activeRetries {
        return;
      }
      activeRetries := activeRetries + {policyName};
      processed, succeeded, failed := ScanForPolicy(Filter(policyName, generation), patience);
      AllServed(setup, handled, |old(handled)|, policyName, generation);
      activeRetries := activeRetries - {policyName};
    }

    // The run of the periodic drain that starts at `clock`.
    function DrainFrom(clock: int, gap: int, generations: map<string, int>): (run: RetryDrain.Drain)
      ensures run.until <= clock + setup.schedule.interval + 5_000_000_000 && run.until <= clock + 125_000_000_000
      ensures run.until == clock + setup.schedule.interval + 5_000_000_000 || run.until == clock + 125_000_000_000
    {
      var duration := if setup.schedule.interval < MAX_PERIODIC_RUN then setup.schedule.interval else MAX_PERIODIC_RUN;
      RetryDrain.Drain(clock, clock + duration + FETCH_WAIT, gap, generations)
    }

    /** Drains the queue: everything whose backoff has expired is retried. The
        ghost parameters name a time that every wait takes at least and the
        generations of the policies. */
    method PeriodicRetry(patience: Option<nat>, ghost gap: int, ghost generations: map<string, int>)
        returns (processed: nat, succeeded: nat, failed: nat)
      requires Valid() && Accounted() && CaughtUp()
      modifies this`retrySub, this`evaluated, this`handled, link
      ensures Valid() && Accounted() && Goes(link.env, {}, old(link.state), link.state) && AllUnder(old(handled), None)
      ensures |handled| == |old(handled)| + processed && handled[..|old(handled)|] == old(handled)
      ensures Counted(old(handled), succeeded, failed)
      // The drain does not spin: while the policies do not change, metadata updates
      // succeed and nobody else acts, what was queued at the start bounds its
      // handlings.
      ensures var run := DrainFrom(old(link.Now()), gap, generations);
        RetryDrain.Spaced(setup.schedule, gap) && CalmSince(DrainRun(run, old(link.others)), |old(handled)|) ==>
          processed <= RetryDrain.Left(setup, run, old(link.Queue()))
      // It goes on until a fetch finds nothing or its time, two minutes or one
      // interval, is over, and has then handled every fetched message.
      ensures patience.None? ==> FoundNothing(|old(link.batches)|)
                                 || link.Now() > old(link.Now()) + 120_000_000_000
                                 || link.Now() > old(link.Now()) + setup.schedule.interval
      ensures CaughtUp()
    {
      processed, succeeded, failed := 0, 0, 0;
      var rounds := 0;
      var runDuration := MAX_PERIODIC_RUN;
      if setup.schedule.interval < runDuration {
        runDuration := setup.schedule.interval;
      }
      var runDeadline := link.Now() + runDuration;
      ghost var scan := DrainRun(DrainFrom(link.Now(), gap, generations), link.others);
      assert handled[|handled|..] == [];
      GoesNowhere(link.env, {}, link.state);
      while link.Now() <= runDeadline
        invariant Valid() && Accounted() && Goes(link.env, {}, old(link.state), link.state) && old(link.others) <= link.others
        invariant AllUnder(old(handled), None) && CaughtUp() && |old(link.batches)| <= |link.batches|
        invariant Counted(old(handled), succeeded, failed)
        invariant Progress(scan, RetryDrain.Spaced(setup.schedule, gap), old(handled), old(link.Queue()), processed)
        decreases runDeadline - link.Now()
      {
        if patience == Some(rounds) {
          break;
        }
        rounds := rounds + 1;
        ghost var s1 := link.state;
        var p;
        p, processed, succeeded, failed :=
          NextBatch(None, processed, succeeded, failed, scan, RetryDrain.Spaced(setup.schedule, gap), old(handled), old(link.Queue()));
        GoesOn(link.env, {}, old(link.state), s1, link.state);
        if p == 0 {
          break;
        }
      }
    }
  }

  lemma AllServed(setup: Setup, hs: seq<Handling>, from: nat, policyName: string, version: int)
    requires forall i :: from <= i < |hs| ==> Proper(setup, hs[i]) && hs[i].filter == Some(Filter(policyName, version))
    ensures forall i :: from <= i < |hs| ==> ServedFor(setup, hs[i], policyName, version)
  {
    forall i | from <= i < |hs| ensures ServedFor(setup, hs[i], policyName, version) {
      ProperlyServed(setup, hs[i], policyName, version);
    }
  }

  const MAX_PERIODIC_RUN := 120 * SECOND

  lemma Extended<T>(a: seq<T>, b: seq<T>, k: nat)
    requires k <= |a| <= |b| && b[..|a|] == a
    ensures b[k..] == a[k..] + b[|a|..]
    ensures forall i :: k <= i < |a| ==> b[i] == a[i]
  {
    assert b == a + b[|a|..];
  }

  lemma {:induction false} CountConcat(setup: Setup, a: seq<Handling>, b: seq<Handling>, outcome: Outcome)
    ensures CountOutcome(setup, a + b, outcome) == CountOutcome(setup, a, outcome) + CountOutcome(setup, b, outcome)
    decreases |b|
  {
    if b == [] {
      assert a + b == a;
    } else {
      assert (a + b)[..|a + b| - 1] == a + b[..|b| - 1];
      CountConcat(setup, a, b[..|b| - 1], outcome);
    }
  }
}
