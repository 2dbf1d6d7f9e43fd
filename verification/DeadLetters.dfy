/**
 Dead-letter events, the message IDs derived from them, and the decisions the
 retry controller takes for one fetched message: what it asks of the broker
 next, given what it read and how its earlier requests were answered.
 */
module DeadLetters {
  import opened Prelude
  import opened Backoff

  datatype EventType = Audit | K8sEvent | OtherType(name: string)

  datatype Resource = Resource(apiGroup: string, kind: string, name: string, namespace: string)

  datatype DeadLetter = DeadLetter(
    eventType: EventType,
    payload: string,
    policyName: string,
    policyVersion: int,
    timestamp: int,
    resource: Option<Resource>,
    retryCount: nat,
    lastRetryAt: Option<int>,
    nextRetryAfter: Option<int>
  )

  // What a dead-letter queue message decodes to.
  datatype Message = Corrupt(raw: string) | Parsed(dl: DeadLetter)

  // The source stream's message ID leaves the retry count out, so all retries
  // of one event share it; the dead-letter queue's own ID includes it.
  datatype SourceId = SourceId(eventType: EventType, policyName: string, payloadHash: string, timestamp: int)

  datatype DlqId = DlqId(lineage: SourceId, retryCount: nat)

  // Payloads enter message IDs through a short hash, a parameter here.
  type Hash = string -> string

  function Lineage(hash: Hash, dl: DeadLetter): SourceId {
    SourceId(dl.eventType, dl.policyName, hash(dl.payload), dl.timestamp)
  }

  function IdOf(hash: Hash, dl: DeadLetter): DlqId {
    DlqId(Lineage(hash, dl), dl.retryCount)
  }

  // A policy-triggered retry matches on policy name and version only.
  datatype Filter = Filter(policyName: string, maxPolicyVersion: int)

  // Whether an evaluator and a generation lookup are wired, and the schedule.
  datatype Setup = Setup(schedule: Schedule, hasEvaluator: bool, hasGeneration: bool)

  // Everything one attempt reads: the batch time, a later clock reading, the
  // active policy generation at two moments, and the evaluation outcome.
  datatype Observed = Observed(now: int, clock: int, generationAtCheck: int, generationAtStamp: int, resolved: bool)

  const MAX_POLICY_RUN := 30 * SECOND
  const FETCH_WAIT := 5 * SECOND
  const POLICY_SKIP_DELAY := MAX_POLICY_RUN + 5 * SECOND
  const ACK_WAIT := 60 * SECOND

  // What remains to be done for a fetched message.
  datatype Pc =
    | Fetched
    | Republishing(dl: DeadLetter, now: int)
    | Recording(dl: DeadLetter, now: int)
    | Acking
    | Naking
    | Deferring(delay: int)
    | Done

  // A request is carried out and answered, carried out with its answer lost, or
  // not carried out in time: it may still reach the broker later, or never. The
  // controller sees an error in the last two cases alike.
  datatype Fate = Delivered | ReplyLost | Late

  predicate Eligible(setup: Setup, dl: DeadLetter, obs: Observed) {
    || (setup.hasGeneration && obs.generationAtCheck > dl.policyVersion)
    || BackoffExpired(dl.nextRetryAfter, obs.now)
  }

  predicate Matches(filter: Filter, dl: DeadLetter) {
    && (filter.policyName == "" || dl.policyName == filter.policyName)
    && (filter.maxPolicyVersion <= 0 || dl.policyVersion < filter.maxPolicyVersion)
  }

  function Stamp(setup: Setup, dl: DeadLetter, generation: int): DeadLetter {
    if setup.hasGeneration && generation > dl.policyVersion then dl.(policyVersion := generation) else dl
  }

  // Only audit events are evaluated in place.
  predicate Evaluates(setup: Setup, dl: DeadLetter) {
    setup.hasEvaluator && dl.eventType == Audit
  }

  function Attempt(setup: Setup, dl: DeadLetter, obs: Observed): Pc {
    var stamped := Stamp(setup, dl, obs.generationAtStamp);
    if Evaluates(setup, dl) && !obs.resolved then Recording(stamped, obs.now)
    else if dl.eventType.OtherType? then Recording(stamped, obs.now)  // no stream to republish to
    else Republishing(stamped, obs.now)
  }

  function Decide(setup: Setup, filter: Option<Filter>, msg: Message, obs: Observed): Pc {
    match msg
    case Corrupt(_) => Acking
    case Parsed(dl) =>
      match filter
      case Some(f) =>
        if Matches(f, dl) then Attempt(setup, dl, obs) else Deferring(POLICY_SKIP_DELAY)
      case None =>
        if Eligible(setup, dl, obs) then Attempt(setup, dl, obs)
        else Deferring(DeferralDelay(setup.schedule, dl.nextRetryAfter, obs.clock))
  }

  // The event stored in place of one whose retry failed.
  function Successor(schedule: Schedule, dl: DeadLetter, now: int): DeadLetter {
    dl.(retryCount := dl.retryCount + 1,
        lastRetryAt := Some(Stored(now)),
        nextRetryAfter := Some(Stored(now + CalculateBackoff(schedule, dl.retryCount + 1))))
  }

  // Where the controller goes once its current request is answered.
  function Advance(pc: Pc, fate: Fate): Pc
    requires pc != Fetched && pc != Done
  {
    match pc
    case Republishing(dl, now) => if fate == Delivered then Acking else Recording(dl, now)
    case Recording(_, _) => if fate == Delivered then Acking else Naking
    case _ => Done
  }
}
