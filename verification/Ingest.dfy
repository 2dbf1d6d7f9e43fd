/**
 Ingest of audit events, in-place re-evaluation of their dead letters, and the
 reindexing of stored audit events. All three evaluate the same policies; they
 differ in what an evaluation error means to them.
 */
module Ingest {
  import opened Prelude
  import opened DeadLetters
  import opened RetryProtocol
  import opened Strings

  datatype ObjectRef = ObjectRef(apiGroup: string, resource: string, name: string, namespace: string)

  datatype AuditEvent = AuditEvent(auditId: string, objectRef: Option<ObjectRef>, body: string)

  datatype CompiledRule = CompiledRule(matchExpr: string, summary: string, valid: bool)

  datatype CompiledPolicy = CompiledPolicy(name: string, apiGroup: string, kind: string, generation: int, rules: seq<CompiledRule>)

  datatype RuleError = MatchFailed | SummaryFailed | BuildFailed

  // What evaluating one rule on one event comes to. A summary links to the
  // resources it names.
  datatype RuleEval = NoMatch | Matched(summary: string, links: seq<string>) | Failed(error: RuleError)

  datatype ErrorType = CelMatch | CelSummary | Unmarshal | KindResolve

  // What an activity takes from its event alone.
  datatype Details =
    Details(changeSource: string, actor: string, tenant: string, namespace: string, resourceName: string, resourceUid: string)

  datatype Activity = Activity(name: string, summary: string, links: seq<string>, apiGroup: string, kind: string,
                               originId: string, details: Details, labels: map<string, string>)

  // Rule evaluation, JSON syntax, decoding, policy lookup, the short hash in
  // names and what an event says about user and resource are parameters.
  type Evaluator = (CompiledRule, AuditEvent) -> RuleEval
  type Decoder = string -> Option<AuditEvent>
  type Lookup = (string, string) -> seq<CompiledPolicy>
  type Describer = AuditEvent -> Details

  datatype Rules =
    Rules(evaluate: Evaluator, isJson: string -> bool, decode: Decoder, lookup: Lookup, shortHash: Hash, details: Describer)

  // Only JSON decodes, and not all of it to an audit event.
  function Decode(r: Rules, payload: string): Option<AuditEvent> {
    if r.isJson(payload) then r.decode(payload) else None
  }

  datatype Verdict = Nothing | Produced(activity: Activity, index: nat) | Erred(index: nat, error: RuleError)

  // ---------------------------------------------------------------------
  // One policy
  // ---------------------------------------------------------------------

  predicate Decides(r: Rules, rule: CompiledRule, audit: AuditEvent) {
    rule.valid && r.evaluate(rule, audit) != NoMatch
  }

  const POLICY_LABEL := "activity.miloapis.com/policy-name"

  // The labels of an audit activity; ingest does not name the policy.
  function AuditLabels(r: Rules, policy: CompiledPolicy, audit: AuditEvent): (labels: map<string, string>)
    ensures POLICY_LABEL !in labels
  {
    map["activity.miloapis.com/origin-type" := "audit",
        "activity.miloapis.com/change-source" := r.details(audit).changeSource,
        "activity.miloapis.com/api-group" := policy.apiGroup,
        "activity.miloapis.com/resource-kind" := policy.kind]
  }

  // What a name is the short hash of.
  function NameInput(originType: string, originId: string, apiGroup: string, kind: string): string {
    originType + "\0" + originId + "\0" + apiGroup + "\0" + kind
  }

  function ActivityName(r: Rules, originType: string, originId: string, apiGroup: string, kind: string): string {
    "act-" + r.shortHash(NameInput(originType, originId, apiGroup, kind))
  }

  function Build(r: Rules, policy: CompiledPolicy, audit: AuditEvent, summary: string, links: seq<string>): Activity {
    Activity(ActivityName(r, "audit", audit.auditId, policy.apiGroup, policy.kind), summary, links,
             policy.apiGroup, policy.kind, audit.auditId, r.details(audit), AuditLabels(r, policy, audit))
  }

  // The activity is what rule `i`, the first of the policy's rules to match or
  // fail, makes of the event.
  ghost predicate Tells(r: Rules, activity: Activity, policy: CompiledPolicy, i: nat, audit: AuditEvent) {
    && i < |policy.rules| && policy.rules[i].valid
    && r.evaluate(policy.rules[i], audit) == Matched(activity.summary, activity.links)
    && (forall j :: 0 <= j < i && policy.rules[j].valid ==> r.evaluate(policy.rules[j], audit) == NoMatch)
    && activity.name == "act-" + r.shortHash("audit" + "\0" + audit.auditId + "\0" + policy.apiGroup + "\0" + policy.kind)
    && activity.originId == audit.auditId && activity.apiGroup == policy.apiGroup && activity.kind == policy.kind
    && activity.details == r.details(audit)
    && activity.labels == map["activity.miloapis.com/origin-type" := "audit",
                              "activity.miloapis.com/change-source" := r.details(audit).changeSource,
                              "activity.miloapis.com/api-group" := policy.apiGroup,
                              "activity.miloapis.com/resource-kind" := policy.kind]
  }

  // Rule `i`, the first of the policy's rules to match or fail, fails.
  ghost predicate FailsAt(r: Rules, policy: CompiledPolicy, i: nat, audit: AuditEvent, error: RuleError) {
    && i < |policy.rules| && policy.rules[i].valid
    && r.evaluate(policy.rules[i], audit) == Failed(error)
    && forall j :: 0 <= j < i && policy.rules[j].valid ==> r.evaluate(policy.rules[j], audit) == NoMatch
  }

  // No rule of the policy matches, or one fails first.
  ghost predicate Silent(r: Rules, policy: CompiledPolicy, audit: AuditEvent) {
    forall i :: 0 <= i < |policy.rules| && policy.rules[i].valid && r.evaluate(policy.rules[i], audit).Matched? ==>
      exists j :: 0 <= j < i && policy.rules[j].valid && r.evaluate(policy.rules[j], audit) != NoMatch
  }

  // The verdict of rule `i`, the first of the policy's rules to decide.
  ghost predicate VerdictAt(r: Rules, policy: CompiledPolicy, audit: AuditEvent, i: nat, v: Verdict)
    requires i < |policy.rules|
  {
    && Decides(r, policy.rules[i], audit)
    && (forall j :: 0 <= j < i ==> !Decides(r, policy.rules[j], audit))
    && match r.evaluate(policy.rules[i], audit)
       case Matched(_, _) => v.Produced? && v.index == i && Tells(r, v.activity, policy, i, audit)
       case Failed(error) => v == Erred(i, error)
       case NoMatch => false
  }

  ghost predicate IsVerdict(r: Rules, policy: CompiledPolicy, audit: AuditEvent, v: Verdict) {
    if exists i :: 0 <= i < |policy.rules| && Decides(r, policy.rules[i], audit)
    then exists i :: 0 <= i < |policy.rules| && VerdictAt(r, policy, audit, i, v)
    else v == Nothing
  }

  function VerdictFrom(r: Rules, policy: CompiledPolicy, audit: AuditEvent, i: nat): (v: Verdict)
    requires i <= |policy.rules|
    decreases |policy.rules| - i
  {
    if i == |policy.rules| then Nothing
    else if !policy.rules[i].valid then VerdictFrom(r, policy, audit, i + 1)
    else match r.evaluate(policy.rules[i], audit)
      case NoMatch => VerdictFrom(r, policy, audit, i + 1)
      case Matched(summary, links) => Produced(Build(r, policy, audit, summary, links), i)
      case Failed(error) => Erred(i, error)
  }

  function Evaluation(r: Rules, policy: CompiledPolicy, audit: AuditEvent): Verdict {
    VerdictFrom(r, policy, audit, 0)
  }

  lemma {:induction false} VerdictFromDecides(r: Rules, policy: CompiledPolicy, audit: AuditEvent, i: nat)
    requires i <= |policy.rules|
    requires forall j :: 0 <= j < i ==> !Decides(r, policy.rules[j], audit)
    ensures IsVerdict(r, policy, audit, VerdictFrom(r, policy, audit, i))
    decreases |policy.rules| - i
  {
    if i < |policy.rules| {
      if Decides(r, policy.rules[i], audit) {
        assert VerdictAt(r, policy, audit, i, VerdictFrom(r, policy, audit, i));
      } else {
        VerdictFromDecides(r, policy, audit, i + 1);
      }
    }
  }

  // A policy speaks through the first of its valid rules that matches or fails.
  lemma FirstDecidingRule(r: Rules, policy: CompiledPolicy, audit: AuditEvent)
    ensures IsVerdict(r, policy, audit, Evaluation(r, policy, audit))
  {
    VerdictFromDecides(r, policy, audit, 0);
  }

  method EvaluateCompiledAuditRules(r: Rules, policy: CompiledPolicy, audit: AuditEvent) returns (v: Verdict)
    ensures v == Evaluation(r, policy, audit)
    ensures IsVerdict(r, policy, audit, v)
  {
    FirstDecidingRule(r, policy, audit);
    for i := 0 to |policy.rules|
      invariant VerdictFrom(r, policy, audit, i) == Evaluation(r, policy, audit)
    {
      var rule := policy.rules[i];
      if !rule.valid {
        continue;
      }
      match r.evaluate(rule, audit) {
        case NoMatch =>
        case Failed(error) => return Erred(i, error);
        case Matched(summary, links) => return Produced(Build(r, policy, audit, summary, links), i);
      }
    }
    return Nothing;
  }

  // The verdict, read off the rules.
  lemma VerdictMeans(r: Rules, policy: CompiledPolicy, audit: AuditEvent)
    ensures var v := Evaluation(r, policy, audit);
      && (forall activity, i: nat :: v == Produced(activity, i) <==> Tells(r, activity, policy, i, audit))
      && (forall i: nat, error :: v == Erred(i, error) <==> FailsAt(r, policy, i, audit, error))
      && (v.Produced? <==> !Silent(r, policy, audit))
  {
    FirstDecidingRule(r, policy, audit);
    var v := Evaluation(r, policy, audit);
    assert forall i :: 0 <= i < |policy.rules| ==>
      (Decides(r, policy.rules[i], audit) <==> policy.rules[i].valid && r.evaluate(policy.rules[i], audit) != NoMatch);
    if v != Nothing {
      var i :| 0 <= i < |policy.rules| && VerdictAt(r, policy, audit, i, v);
      forall activity, k: nat ensures v == Produced(activity, k) <==> Tells(r, activity, policy, k, audit) {
        TellsOnce(r, policy, audit, i, k, v, activity);
      }
    }
  }

  // Rules decide at one place only, and an event makes one activity there.
  lemma TellsOnce(r: Rules, policy: CompiledPolicy, audit: AuditEvent, i: nat, k: nat, v: Verdict, activity: Activity)
    requires i < |policy.rules| && VerdictAt(r, policy, audit, i, v)
    ensures v == Produced(activity, k) <==> Tells(r, activity, policy, k, audit)
  {
    if Tells(r, activity, policy, k, audit) {
      assert Decides(r, policy.rules[k], audit);
      assert k == i;
    }
  }

  // Error classification for the dead-letter queue.
  function ClassifyEvaluationError(ruleIndex: int, error: RuleError): ErrorType {
    if ruleIndex < 0 then CelMatch
    else if error == BuildFailed then KindResolve
    else CelSummary
  }

  // ---------------------------------------------------------------------
  // All policies of a resource
  // ---------------------------------------------------------------------

  // Policy `k` is the first to produce an activity.
  ghost predicate FirstMatch(r: Rules, policies: seq<CompiledPolicy>, audit: AuditEvent, k: int) {
    && 0 <= k < |policies| && Evaluation(r, policies[k], audit).Produced?
    && forall j :: 0 <= j < k ==> !Evaluation(r, policies[j], audit).Produced?
  }

  ghost predicate HasMatch(r: Rules, policies: seq<CompiledPolicy>, audit: AuditEvent) {
    exists k :: FirstMatch(r, policies, audit, k)
  }

  // A report to the dead-letter queue; storing it adds a time and no retries.
  datatype Report = Report(payload: string, policyName: string, policyVersion: int, ruleIndex: int, errorType: ErrorType)

  function ReportOf(r: Rules, payload: string, policies: seq<CompiledPolicy>, audit: AuditEvent, i: nat): Report
    requires i < |policies| && Evaluation(r, policies[i], audit).Erred?
  {
    var Erred(index, error) := Evaluation(r, policies[i], audit);
    Report(payload, policies[i].name, policies[i].generation, index, ClassifyEvaluationError(index, error))
  }

  function ReportsFrom(r: Rules, payload: string, policies: seq<CompiledPolicy>, audit: AuditEvent, i: nat): seq<Report>
    requires i <= |policies|
    decreases |policies| - i
  {
    if i == |policies| then []
    else match Evaluation(r, policies[i], audit)
      case Produced(_, _) => []
      case Erred(_, _) => [ReportOf(r, payload, policies, audit, i)] + ReportsFrom(r, payload, policies, audit, i + 1)
      case Nothing => ReportsFrom(r, payload, policies, audit, i + 1)
  }

  // What ingesting a payload owes the dead-letter queue.
  function Reports(r: Rules, payload: string): seq<Report> {
    match Decode(r, payload)
    case None => [Report(payload, "", 0, -1, Unmarshal)]
    case Some(audit) =>
      match audit.objectRef
      case None => []
      case Some(ref) => ReportsFrom(r, payload, r.lookup(ref.apiGroup, ref.resource), audit, 0)
  }

  // What ingesting a payload owes the output stream.
  function ProducedFrom(r: Rules, policies: seq<CompiledPolicy>, audit: AuditEvent, i: nat): Option<Activity>
    requires i <= |policies|
    decreases |policies| - i
  {
    if i == |policies| then None
    else match Evaluation(r, policies[i], audit)
      case Produced(activity, _) => Some(activity)
      case _ => ProducedFrom(r, policies, audit, i + 1)
  }

  function ActivityFor(r: Rules, audit: AuditEvent): Option<Activity> {
    match audit.objectRef
    case None => None
    case Some(ref) => ProducedFrom(r, r.lookup(ref.apiGroup, ref.resource), audit, 0)
  }

  lemma {:induction false} ProducedByFirstMatch(r: Rules, policies: seq<CompiledPolicy>, audit: AuditEvent, i: nat)
    requires i <= |policies|
    requires forall j :: 0 <= j < i ==> !Evaluation(r, policies[j], audit).Produced?
    ensures ProducedFrom(r, policies, audit, i).Some? <==> HasMatch(r, policies, audit)
    ensures forall k :: FirstMatch(r, policies, audit, k) ==>
              ProducedFrom(r, policies, audit, i) == Some(Evaluation(r, policies[k], audit).activity)
    decreases |policies| - i
  {
    if i < |policies| {
      if Evaluation(r, policies[i], audit).Produced? {
        assert FirstMatch(r, policies, audit, i);
      } else {
        ProducedByFirstMatch(r, policies, audit, i + 1);
      }
    }
  }

  // Policy `k` fails and none before it produces an activity.
  ghost predicate FailsFirst(r: Rules, policies: seq<CompiledPolicy>, audit: AuditEvent, i: int, k: int) {
    && 0 <= i <= k < |policies| && Evaluation(r, policies[k], audit).Erred?
    && forall j :: i <= j < k ==> !Evaluation(r, policies[j], audit).Produced?
  }

  // A report is owed exactly for the policies that fail first.
  lemma {:induction false} ReportsExact(r: Rules, payload: string, policies: seq<CompiledPolicy>, audit: AuditEvent, i: nat)
    requires i <= |policies|
    ensures forall k :: FailsFirst(r, policies, audit, i, k) ==>
              ReportOf(r, payload, policies, audit, k) in ReportsFrom(r, payload, policies, audit, i)
    ensures forall x :: x in ReportsFrom(r, payload, policies, audit, i) ==>
              exists k :: FailsFirst(r, policies, audit, i, k) && x == ReportOf(r, payload, policies, audit, k)
    ensures ReportsFrom(r, payload, policies, audit, i) == [] <==> forall k :: !FailsFirst(r, policies, audit, i, k)
    decreases |policies| - i
  {
    if i < |policies| {
      ReportsExact(r, payload, policies, audit, i + 1);
      var v := Evaluation(r, policies[i], audit);
      forall k | FailsFirst(r, policies, audit, i, k)
        ensures ReportOf(r, payload, policies, audit, k) in ReportsFrom(r, payload, policies, audit, i)
      {
        if k > i {
          assert FailsFirst(r, policies, audit, i + 1, k);
        }
      }
      forall x | x in ReportsFrom(r, payload, policies, audit, i)
        ensures exists k :: FailsFirst(r, policies, audit, i, k) && x == ReportOf(r, payload, policies, audit, k)
      {
        if v.Erred? && x == ReportOf(r, payload, policies, audit, i) {
          assert FailsFirst(r, policies, audit, i, i);
        } else {
          var k :| FailsFirst(r, policies, audit, i + 1, k) && x == ReportOf(r, payload, policies, audit, k);
          assert FailsFirst(r, policies, audit, i, k);
        }
      }
      var reports := ReportsFrom(r, payload, policies, audit, i);
      assert reports != [] ==> reports[0] in reports;
    }
  }

  // The policies that a payload's event is held against.
  ghost predicate Against(r: Rules, payload: string, audit: AuditEvent, policies: seq<CompiledPolicy>) {
    && r.isJson(payload) && r.decode(payload) == Some(audit)
    && exists ref :: audit.objectRef == Some(ref) && policies == r.lookup(ref.apiGroup, ref.resource)
  }

  // Rule `i` of policy `k` makes the activity, and no earlier policy makes one.
  ghost predicate MadeBy(r: Rules, activity: Activity, policies: seq<CompiledPolicy>, audit: AuditEvent, k: nat, i: nat) {
    && k < |policies| && Tells(r, activity, policies[k], i, audit)
    && forall j :: 0 <= j < k ==> Silent(r, policies[j], audit)
  }

  // The activity is the one the payload's event should lead to: its own, told
  // by the first policy that has something to tell.
  ghost predicate IsActivityOf(r: Rules, payload: string, activity: Activity) {
    exists audit, policies, k, i :: Against(r, payload, audit, policies) && MadeBy(r, activity, policies, audit, k, i)
  }

  lemma {:induction false} ProducedFromMeans(r: Rules, policies: seq<CompiledPolicy>, audit: AuditEvent, from: nat, activity: Activity)
    requires from <= |policies| && forall j :: 0 <= j < from ==> Silent(r, policies[j], audit)
    ensures ProducedFrom(r, policies, audit, from) == Some(activity) <==> exists k, i :: MadeBy(r, activity, policies, audit, k, i)
    decreases |policies| - from
  {
    if from == |policies| {
      forall k: nat, i: nat | MadeBy(r, activity, policies, audit, k, i) ensures false {
        VerdictMeans(r, policies[k], audit);
      }
    } else {
      VerdictMeans(r, policies[from], audit);
      var v := Evaluation(r, policies[from], audit);
      if !v.Produced? {
        ProducedFromMeans(r, policies, audit, from + 1, activity);
      } else if v.activity == activity {
        assert MadeBy(r, activity, policies, audit, from, v.index);
      } else {
        forall k: nat, i: nat | MadeBy(r, activity, policies, audit, k, i) ensures false {
          MadeAtFirst(r, activity, policies, audit, k, i, from);
        }
      }
    }
  }

  lemma MadeAtFirst(r: Rules, activity: Activity, policies: seq<CompiledPolicy>, audit: AuditEvent, k: nat, i: nat, from: nat)
    requires MadeBy(r, activity, policies, audit, k, i) && from < |policies| && !Silent(r, policies[from], audit)
    requires forall j :: 0 <= j < from ==> Silent(r, policies[j], audit)
    ensures k == from && Evaluation(r, policies[from], audit) == Produced(activity, i)
  {
    VerdictMeans(r, policies[k], audit);
  }

  // What a payload leads to, read off its event, the policies and their rules.
  lemma ActivityOfMeans(r: Rules, payload: string, activity: Activity)
    ensures ActivityOf(r, payload) == Some(activity) <==> IsActivityOf(r, payload, activity)
  {
    if Decode(r, payload).Some? && Decode(r, payload).value.objectRef.Some? {
      var audit := Decode(r, payload).value;
      var ref := audit.objectRef.value;
      var policies := r.lookup(ref.apiGroup, ref.resource);
      ProducedFromMeans(r, policies, audit, 0, activity);
      assert Against(r, payload, audit, policies);
    }
  }

  // Policy `k` fails at rule `i`, and no earlier policy tells an activity.
  ghost predicate Fails(r: Rules, policies: seq<CompiledPolicy>, audit: AuditEvent, k: nat, i: nat, error: RuleError) {
    && k < |policies| && FailsAt(r, policies[k], i, audit, error)
    && forall j :: 0 <= j < k ==> Silent(r, policies[j], audit)
  }

  // The report that the failure of a rule should lead to.
  ghost predicate ReportsFailure(x: Report, payload: string, policy: CompiledPolicy, i: nat, error: RuleError) {
    && x.payload == payload && x.policyName == policy.name && x.policyVersion == policy.generation && x.ruleIndex == i
    && x.errorType == if error == BuildFailed then KindResolve else CelSummary
  }

  ghost predicate IsReportOf(r: Rules, payload: string, x: Report) {
    if !r.isJson(payload) || r.decode(payload).None? then x == Report(payload, "", 0, -1, Unmarshal)
    else exists audit, policies, k, i, error ::
      Against(r, payload, audit, policies) && Fails(r, policies, audit, k, i, error) && ReportsFailure(x, payload, policies[k], i, error)
  }

  // Every failure before the first match is reported, with its policy's
  // version, its rule and its kind of error, and nothing else is.
  lemma ReportsMean(r: Rules, payload: string, x: Report)
    ensures x in Reports(r, payload) <==> IsReportOf(r, payload, x)
  {
    if Decode(r, payload).Some? && Decode(r, payload).value.objectRef.Some? {
      var audit := Decode(r, payload).value;
      var ref := audit.objectRef.value;
      var policies := r.lookup(ref.apiGroup, ref.resource);
      assert Against(r, payload, audit, policies);
      ReportsExact(r, payload, policies, audit, 0);
      FailsFirstMeans(r, policies, audit);
      if x in Reports(r, payload) {
        var k :| FailsFirst(r, policies, audit, 0, k) && x == ReportOf(r, payload, policies, audit, k);
        var Erred(i, error) := Evaluation(r, policies[k], audit);
        assert Fails(r, policies, audit, k, i, error) && ReportsFailure(x, payload, policies[k], i, error);
      }
      if k: nat, i: nat, error :| Fails(r, policies, audit, k, i, error) && ReportsFailure(x, payload, policies[k], i, error) {
        VerdictMeans(r, policies[k], audit);
        assert FailsFirst(r, policies, audit, 0, k) && x == ReportOf(r, payload, policies, audit, k);
      }
    }
  }

  lemma FailsFirstMeans(r: Rules, policies: seq<CompiledPolicy>, audit: AuditEvent)
    ensures forall k: nat, i: nat, error ::
      FailsFirst(r, policies, audit, 0, k) && Evaluation(r, policies[k], audit) == Erred(i, error) <==>
      Fails(r, policies, audit, k, i, error)
  {
    forall j | 0 <= j < |policies|
      ensures Evaluation(r, policies[j], audit).Produced? <==> !Silent(r, policies[j], audit)
      ensures forall i: nat, error :: Evaluation(r, policies[j], audit) == Erred(i, error) <==> FailsAt(r, policies[j], i, audit, error)
    {
      VerdictMeans(r, policies[j], audit);
    }
  }

  // A payload that does not decode, or decodes to an event with a reference.
  predicate SafeToReEvaluate(r: Rules, payload: string) {
    Decode(r, payload).Some? ==> Decode(r, payload).value.objectRef.Some?
  }

  // Every policy of the resource, also one after the first match, evaluates
  // without an error.
  predicate ResolvedFor(r: Rules, payload: string)
    requires SafeToReEvaluate(r, payload)
  {
    match Decode(r, payload)
    case None => false
    case Some(audit) =>
      var ref := audit.objectRef.value;
      var policies := r.lookup(ref.apiGroup, ref.resource);
      forall k :: 0 <= k < |policies| ==> !Evaluation(r, policies[k], audit).Erred?
  }

  // None of the first `n` policies fails, whatever the others do.
  ghost predicate NoneFails(r: Rules, policies: seq<CompiledPolicy>, audit: AuditEvent, n: int) {
    forall k, i: nat, error {:trigger FailsAt(r, policies[k], i, audit, error)} ::
      0 <= k < n && k < |policies| ==> !FailsAt(r, policies[k], i, audit, error)
  }

  ghost predicate FirstFailure(r: Rules, policies: seq<CompiledPolicy>, audit: AuditEvent, k: nat, i: nat, error: RuleError) {
    k < |policies| && FailsAt(r, policies[k], i, audit, error) && NoneFails(r, policies, audit, k)
  }

  // Why a dead letter stays unresolved: its payload does not decode, or some
  // policy fails, also one behind the first match.
  ghost predicate IsOutcome(r: Rules, payload: string, errorType: Option<ErrorType>) {
    if !r.isJson(payload) || r.decode(payload).None? then errorType == Some(Unmarshal)
    else exists audit, policies :: Against(r, payload, audit, policies) && FailsWith(r, policies, audit, errorType)
  }

  ghost predicate FailsWith(r: Rules, policies: seq<CompiledPolicy>, audit: AuditEvent, errorType: Option<ErrorType>) {
    match errorType
    case None => NoneFails(r, policies, audit, |policies|)
    case Some(t) =>
      exists k, i, error :: FirstFailure(r, policies, audit, k, i, error) && t == if error == BuildFailed then KindResolve else CelSummary
  }

  method ReEvaluateDeadLetter(r: Rules, payload: string) returns (resolved: bool, errorType: Option<ErrorType>)
    requires SafeToReEvaluate(r, payload)
    ensures resolved <==> ResolvedFor(r, payload)
    ensures resolved <==> errorType.None?
    ensures IsOutcome(r, payload, errorType)
  {
    var decoded := Decode(r, payload);
    if decoded.None? {
      return false, Some(Unmarshal);
    }
    var ref := decoded.value.objectRef.value;
    var policies := r.lookup(ref.apiGroup, ref.resource);
    assert Against(r, payload, decoded.value, policies);
    for i := 0 to |policies|
      invariant forall k :: 0 <= k < i ==> !Evaluation(r, policies[k], decoded.value).Erred?
      invariant NoneFails(r, policies, decoded.value, i)
    {
      var v := EvaluateCompiledAuditRules(r, policies[i], decoded.value);
      VerdictMeans(r, policies[i], decoded.value);
      if v.Erred? {
        assert FirstFailure(r, policies, decoded.value, i, v.index, v.error);
        return false, Some(ClassifyEvaluationError(v.index, v.error));
      }
    }
    return true, None;
  }

  // Re-evaluation is sound for re-ingest: a resolved event leaves no new dead
  // letter when its payload is ingested again under the same policies.
  lemma ResolvedIngestsCleanly(r: Rules, payload: string)
    requires SafeToReEvaluate(r, payload) && ResolvedFor(r, payload)
    ensures Reports(r, payload) == []
  {
    var audit := Decode(r, payload).value;
    var ref := audit.objectRef.value;
    var policies := r.lookup(ref.apiGroup, ref.resource);
    ReportsExact(r, payload, policies, audit, 0);
  }

  // Policy `k` produces the activity, no earlier one fails, but `l` behind it does.
  ghost predicate FailsBehindMatch(r: Rules, policies: seq<CompiledPolicy>, audit: AuditEvent, k: int, l: int) {
    && FirstMatch(r, policies, audit, k) && (forall j :: 0 <= j < k ==> !Evaluation(r, policies[j], audit).Erred?)
    && k < l < |policies| && Evaluation(r, policies[l], audit).Erred?
  }

  // It is stricter than ingest: an event that would ingest cleanly stays
  // unresolved exactly when some policy fails behind the first match.
  lemma UnresolvedThoughClean(r: Rules, payload: string)
    requires Decode(r, payload).Some? && Decode(r, payload).value.objectRef.Some?
    ensures var audit := Decode(r, payload).value;
      var policies := r.lookup(audit.objectRef.value.apiGroup, audit.objectRef.value.resource);
      Reports(r, payload) == [] && !ResolvedFor(r, payload) <==>
        exists k, l :: FailsBehindMatch(r, policies, audit, k, l)
  {
    var audit := Decode(r, payload).value;
    var policies := r.lookup(audit.objectRef.value.apiGroup, audit.objectRef.value.resource);
    ReportsExact(r, payload, policies, audit, 0);
    if Reports(r, payload) == [] && !ResolvedFor(r, payload) {
      var l :| 0 <= l < |policies| && Evaluation(r, policies[l], audit).Erred?;
      assert !FailsFirst(r, policies, audit, 0, l);
      var p :| 0 <= p < l && Evaluation(r, policies[p], audit).Produced?;
      var k := FirstProducing(r, policies, audit, p);
      forall j | 0 <= j < k ensures !Evaluation(r, policies[j], audit).Erred? {
        assert !FailsFirst(r, policies, audit, 0, j);
      }
      assert FailsBehindMatch(r, policies, audit, k, l);
    }
    if k, l :| FailsBehindMatch(r, policies, audit, k, l) {
      assert forall m :: !FailsFirst(r, policies, audit, 0, m);
      assert !ResolvedFor(r, payload);
    }
  }

  lemma FirstProducing(r: Rules, policies: seq<CompiledPolicy>, audit: AuditEvent, p: nat) returns (k: nat)
    requires p < |policies| && Evaluation(r, policies[p], audit).Produced?
    ensures k <= p && FirstMatch(r, policies, audit, k)
  {
    k := 0;
    while !Evaluation(r, policies[k], audit).Produced?
      invariant k <= p && forall j :: 0 <= j < k ==> !Evaluation(r, policies[j], audit).Produced?
      decreases p - k
    {
      k := k + 1;
    }
  }

  // ---------------------------------------------------------------------
  // Ingest
  // ---------------------------------------------------------------------

  predicate Holds(output: seq<Activity>, name: string) {
    exists k :: 0 <= k < |output| && output[k].name == name
  }

  // The output stream drops an activity whose name it has seen.
  function Store(output: seq<Activity>, activity: Activity): seq<Activity> {
    if Holds(output, activity.name) then output else output + [activity]
  }

  ghost predicate NamesDistinct(output: seq<Activity>) {
    forall k, l :: 0 <= k < l < |output| ==> output[k].name != output[l].name
  }

  // The one activity a payload can lead to.
  function ActivityOf(r: Rules, payload: string): Option<Activity> {
    if Decode(r, payload).None? then None else ActivityFor(r, Decode(r, payload).value)
  }

  ghost predicate Owed(r: Rules, payloads: seq<string>, activity: Activity) {
    exists i :: 0 <= i < |payloads| && ActivityOf(r, payloads[i]) == Some(activity)
  }

  // Activities of different content have different names.
  ghost predicate Separate(r: Rules, payloads: seq<string>) {
    forall i, j | 0 <= i < |payloads| && 0 <= j < |payloads| ::
      ActivityOf(r, payloads[i]).Some? && ActivityOf(r, payloads[j]).Some?
      && ActivityOf(r, payloads[i]).value.name == ActivityOf(r, payloads[j]).value.name ==>
        ActivityOf(r, payloads[i]) == ActivityOf(r, payloads[j])
  }

  lemma OwnStored(r: Rules, payloads: seq<string>, output: seq<Activity>, i: nat)
    requires Separate(r, payloads) && i < |payloads| && ActivityOf(r, payloads[i]).Some?
    requires Holds(output, ActivityOf(r, payloads[i]).value.name)
    requires forall k :: 0 <= k < |output| ==> Owed(r, payloads, output[k])
    ensures ActivityOf(r, payloads[i]).value in output
  {
    var k :| 0 <= k < |output| && output[k].name == ActivityOf(r, payloads[i]).value.name;
    assert Owed(r, payloads, output[k]);
    var j :| 0 <= j < |payloads| && ActivityOf(r, payloads[j]) == Some(output[k]);
  }

  // An audit ID stands for one event.
  ghost predicate IdsNameEvents(r: Rules, payloads: seq<string>) {
    forall i, j | 0 <= i < |payloads| && 0 <= j < |payloads| ::
      Decode(r, payloads[i]).Some? && Decode(r, payloads[j]).Some?
      && Decode(r, payloads[i]).value.auditId == Decode(r, payloads[j]).value.auditId ==>
        Decode(r, payloads[i]) == Decode(r, payloads[j])
  }

  // No separator in an audit ID.
  predicate PlainIds(r: Rules, payloads: seq<string>) {
    forall i :: 0 <= i < |payloads| && Decode(r, payloads[i]).Some? ==> Without(Decode(r, payloads[i]).value.auditId, '\0')
  }

  // The event, group and kind of an activity as its name should encode them.
  ghost predicate NamedFor(a: Activity, input: string) {
    input == "audit" + "\0" + a.originId + "\0" + a.apiGroup + "\0" + a.kind
  }

  // Two activities that should have different names are hashed to the same.
  ghost predicate Clash(r: Rules, a: Activity, b: Activity) {
    exists x, y :: NamedFor(a, x) && NamedFor(b, y) && x != y && r.shortHash(x) == r.shortHash(y)
  }

  ghost predicate NoClash(r: Rules, payloads: seq<string>) {
    forall i, j | 0 <= i < |payloads| && 0 <= j < |payloads| ::
      ActivityOf(r, payloads[i]).Some? && ActivityOf(r, payloads[j]).Some? ==>
        !Clash(r, ActivityOf(r, payloads[i]).value, ActivityOf(r, payloads[j]).value)
  }

  // Names go with audit IDs: as long as an ID stands for one event, activities
  // are kept apart exactly when the short hash keeps their inputs apart.
  lemma SeparateIffNoClash(r: Rules, payloads: seq<string>)
    requires IdsNameEvents(r, payloads) && PlainIds(r, payloads)
    ensures Separate(r, payloads) <==> NoClash(r, payloads)
  {
    forall i, j | 0 <= i < |payloads| && 0 <= j < |payloads|
                  && ActivityOf(r, payloads[i]).Some? && ActivityOf(r, payloads[j]).Some?
      ensures var a, b := ActivityOf(r, payloads[i]).value, ActivityOf(r, payloads[j]).value;
              (a.name == b.name ==> a == b) <==> !Clash(r, a, b)
    {
      NamesApart(r, payloads[i], payloads[j]);
    }
  }

  lemma NamesApart(r: Rules, x: string, y: string)
    requires ActivityOf(r, x).Some? && ActivityOf(r, y).Some?
    requires Without(Decode(r, x).value.auditId, '\0') && Without(Decode(r, y).value.auditId, '\0')
    requires Decode(r, x).value.auditId == Decode(r, y).value.auditId ==> Decode(r, x) == Decode(r, y)
    ensures var a, b := ActivityOf(r, x).value, ActivityOf(r, y).value;
            (a.name == b.name ==> a == b) <==> !Clash(r, a, b)
  {
    var a, b := ActivityOf(r, x).value, ActivityOf(r, y).value;
    var s := Named(r, x, a);
    var t := Named(r, y, b);
    PrefixCancels("act-", r.shortHash(s), r.shortHash(t));
    if s == t {
      InputNamesEvent(a.originId, a.apiGroup, a.kind, b.originId, b.apiGroup, b.kind);
    }
  }

  lemma Named(r: Rules, payload: string, a: Activity) returns (input: string)
    requires ActivityOf(r, payload) == Some(a)
    ensures NamedFor(a, input) && a.name == "act-" + r.shortHash(input) && Decode(r, payload).Some?
    ensures a.originId == Decode(r, payload).value.auditId
  {
    input := "audit" + "\0" + a.originId + "\0" + a.apiGroup + "\0" + a.kind;
    ActivityOfMeans(r, payload, a);
    var audit, policies, k, i :| Against(r, payload, audit, policies) && MadeBy(r, a, policies, audit, k, i);
    assert Tells(r, a, policies[k], i, audit);
  }

  lemma PrefixCancels(p: string, x: string, y: string)
    ensures p + x == p + y <==> x == y
  {
    assert (p + x)[|p|..] == x && (p + y)[|p|..] == y;
  }

  // Up to its first separator behind the origin type, the input is the ID.
  lemma InputNamesEvent(id: string, group: string, kind: string, id': string, group': string, kind': string)
    requires Without(id, '\0') && Without(id', '\0')
    requires "audit" + "\0" + id + "\0" + group + "\0" + kind == "audit" + "\0" + id' + "\0" + group' + "\0" + kind'
    ensures id == id'
  {
    var rest, rest' := group + "\0" + kind, group' + "\0" + kind';
    assert "audit" + "\0" + id + "\0" + group + "\0" + kind == ("audit" + "\0") + (id + "\0" + rest);
    assert "audit" + "\0" + id' + "\0" + group' + "\0" + kind' == ("audit" + "\0") + (id' + "\0" + rest');
    PrefixCancels("audit" + "\0", id + "\0" + rest, id' + "\0" + rest');
    SplitJoined(id, '\0', rest);
    SplitJoined(id', '\0', rest');
    SplitFree(id, '\0');
    SplitFree(id', '\0');
    assert Split(id + "\0" + rest, '\0')[0] == id && Split(id' + "\0" + rest', '\0')[0] == id';
  }

  lemma AllOwnStored(r: Rules, payloads: seq<string>, output: seq<Activity>)
    requires Separate(r, payloads) && forall k :: 0 <= k < |output| ==> Owed(r, payloads, output[k])
    ensures forall i :: 0 <= i < |payloads| && ActivityOf(r, payloads[i]).Some? && Holds(output, ActivityOf(r, payloads[i]).value.name) ==>
              ActivityOf(r, payloads[i]).value in output
  {
    forall i | 0 <= i < |payloads| && ActivityOf(r, payloads[i]).Some? && Holds(output, ActivityOf(r, payloads[i]).value.name)
      ensures ActivityOf(r, payloads[i]).value in output
    {
      OwnStored(r, payloads, output, i);
    }
  }

  // The output stream after messages were delivered once each without a fault.
  function Delivered(r: Rules, payloads: seq<string>): seq<Activity> {
    if payloads == [] then []
    else
      var n := |payloads| - 1;
      var before := Delivered(r, payloads[..n]);
      match ActivityOf(r, payloads[n])
      case None => before
      case Some(activity) => Store(before, activity)
  }

  lemma {:induction false} DeliveredHolds(r: Rules, payloads: seq<string>)
    ensures NamesDistinct(Delivered(r, payloads))
    ensures forall k :: 0 <= k < |Delivered(r, payloads)| ==> Owed(r, payloads, Delivered(r, payloads)[k])
    ensures forall i :: 0 <= i < |payloads| && ActivityOf(r, payloads[i]).Some? ==>
      Holds(Delivered(r, payloads), ActivityOf(r, payloads[i]).value.name)
  {
    if payloads != [] {
      var n := |payloads| - 1;
      DeliveredHolds(r, payloads[..n]);
      StoreKeeps(Delivered(r, payloads[..n]), ActivityOf(r, payloads[n]));
      forall k | 0 <= k < |Delivered(r, payloads)| ensures Owed(r, payloads, Delivered(r, payloads)[k]) {
        var before := Delivered(r, payloads[..n]);
        if k < |before| {
          assert Owed(r, payloads[..n], before[k]);
          var j :| 0 <= j < n && ActivityOf(r, payloads[..n][j]) == Some(before[k]);
          assert ActivityOf(r, payloads[j]) == Some(Delivered(r, payloads)[k]);
        } else {
          assert ActivityOf(r, payloads[n]) == Some(Delivered(r, payloads)[k]);
        }
      }
      forall i | 0 <= i < |payloads| && ActivityOf(r, payloads[i]).Some?
        ensures Holds(Delivered(r, payloads), ActivityOf(r, payloads[i]).value.name)
      {
        assert i < n ==> payloads[..n][i] == payloads[i];
      }
    }
  }

  // Even without a fault every message's own activity arrives exactly when no
  // two of them share a name; otherwise the later one is taken for a duplicate.
  lemma StoredIffSeparate(r: Rules, payloads: seq<string>)
    ensures (forall i :: 0 <= i < |payloads| && ActivityOf(r, payloads[i]).Some? ==>
              ActivityOf(r, payloads[i]).value in Delivered(r, payloads)) <==> Separate(r, payloads)
  {
    DeliveredHolds(r, payloads);
    var output := Delivered(r, payloads);
    if Separate(r, payloads) {
      forall i | 0 <= i < |payloads| && ActivityOf(r, payloads[i]).Some? ensures ActivityOf(r, payloads[i]).value in output {
        OwnStored(r, payloads, output, i);
      }
    }
  }

  lemma OwedMean(r: Rules, payload: string)
    ensures ActivityOf(r, payload).Some? ==> IsActivityOf(r, payload, ActivityOf(r, payload).value)
    ensures forall x :: x in Reports(r, payload) ==> IsReportOf(r, payload, x)
  {
    if ActivityOf(r, payload).Some? {
      ActivityOfMeans(r, payload, ActivityOf(r, payload).value);
    }
    forall x | x in Reports(r, payload) ensures IsReportOf(r, payload, x) {
      ReportsMean(r, payload, x);
    }
  }

  lemma NextOwed(owed: seq<Report>, n: nat)
    requires n <= |owed|
    ensures owed[n..] != [] ==> n < |owed| && owed[n..][0] == owed[n] && owed[n..][1..] == owed[n + 1..]
    ensures owed[n..] != [] ==> owed[..n] + [owed[n]] == owed[..n + 1]
  {
  }

  // Some delivered payload's event leads to this activity.
  ghost predicate ToldBy(r: Rules, payloads: seq<string>, activity: Activity) {
    exists i :: 0 <= i < |payloads| && IsActivityOf(r, payloads[i], activity)
  }

  lemma OwedIsTold(r: Rules, payloads: seq<string>, activity: Activity)
    requires Owed(r, payloads, activity)
    ensures ToldBy(r, payloads, activity)
  {
    var i :| 0 <= i < |payloads| && ActivityOf(r, payloads[i]) == Some(activity);
    ActivityOfMeans(r, payloads[i], activity);
  }

  class Processor {
    const rules: Rules
    const dlqEnabled: bool
    // Activities accepted by the output stream and reports accepted by the
    // dead-letter queue, in order.
    var output: seq<Activity>
    var reports: seq<Report>
    // How many publishes were not confirmed.
    ghost var failures: nat

    constructor (rules: Rules, dlqEnabled: bool)
      ensures this.rules == rules && this.dlqEnabled == dlqEnabled && output == [] && reports == [] && failures == 0
    {
      this.rules, this.dlqEnabled, output, reports, failures := rules, dlqEnabled, [], [], 0;
    }

    // The stream may accept a message without its confirmation coming back.
    method PublishActivity(activity: Activity) returns (ok: bool)
      modifies this`output, this`failures
      ensures failures == old(failures) + if ok then 0 else 1
      ensures output == old(output) || output == Store(old(output), activity)
      ensures ok ==> output == Store(old(output), activity)
    {
      ok := *;
      var stored := *;
      if ok || stored {
        output := Store(output, activity);
      }
      failures := failures + if ok then 0 else 1;
    }

    method PublishAuditFailure(report: Report) returns (ok: bool)
      modifies this`reports, this`failures
      ensures failures == old(failures) + if ok then 0 else 1
      ensures reports == old(reports) || (dlqEnabled && reports == old(reports) + [report])
      // The payload is embedded as it is, so one that is not JSON cannot be sent.
      ensures dlqEnabled && !rules.isJson(report.payload) ==> !ok && reports == old(reports)
      ensures ok && dlqEnabled ==> reports == old(reports) + [report]
      ensures !dlqEnabled ==> ok
    {
      if !dlqEnabled {
        return true;
      }
      if !rules.isJson(report.payload) {
        failures := failures + 1;
        return false;
      }
      ok := *;
      var stored := *;
      if ok || stored {
        reports := reports + [report];
      }
      failures := failures + if ok then 0 else 1;
    }

    /** Processes one delivery of an audit message; the worker acks it if this
        returns true and asks for it back otherwise. */
    method ProcessMessage(payload: string) returns (acked: bool)
      modifies this
      // It is asked for back exactly if a publish was not confirmed.
      ensures failures == old(failures) + if acked then 0 else 1
      // Reports go out in policy order, and a message is acked with all of them
      // accepted.
      ensures exists n :: 0 <= n <= |Reports(rules, payload)| && reports == old(reports) + Reports(rules, payload)[..n]
      ensures acked && dlqEnabled ==> reports == old(reports) + Reports(rules, payload)
      // Only the first matching policy's activity goes out, and a message is
      // acked with it accepted.
      ensures output == old(output)
              || (ActivityOf(rules, payload).Some? && output == Store(old(output), ActivityOf(rules, payload).value))
      ensures acked && ActivityOf(rules, payload).Some? ==>
                output == Store(old(output), ActivityOf(rules, payload).value)
      // Both speak of this event, its policies and the rules that decided.
      ensures ActivityOf(rules, payload).Some? ==> IsActivityOf(rules, payload, ActivityOf(rules, payload).value)
      ensures forall x :: x in Reports(rules, payload) ==> IsReportOf(rules, payload, x)
      // With a dead-letter queue, a message that is not JSON is never acked.
      ensures dlqEnabled && !rules.isJson(payload) ==> !acked && output == old(output) && reports == old(reports)
      // The activity is not published before every owed report is accepted.
      ensures output != old(output) && dlqEnabled ==> reports == old(reports) + Reports(rules, payload)
    {
      OwedMean(rules, payload);
      ghost var owed := Reports(rules, payload);
      assert reports == reports + owed[..0] && owed[..|owed|] == owed;
      var decoded := Decode(rules, payload);
      if decoded.None? {
        acked := PublishAuditFailure(Report(payload, "", 0, -1, Unmarshal));
        return;
      }
      var audit := decoded.value;
      if audit.objectRef.None? {
        return true;
      }
      acked := ProcessPolicies(payload, audit, rules.lookup(audit.objectRef.value.apiGroup, audit.objectRef.value.resource));
    }

    // The policies in order, until one produces an activity.
    method ProcessPolicies(payload: string, audit: AuditEvent, policies: seq<CompiledPolicy>) returns (acked: bool)
      requires rules.isJson(payload)
      modifies this
      ensures failures == old(failures) + if acked then 0 else 1
      ensures var owed := ReportsFrom(rules, payload, policies, audit, 0);
              && (exists n :: 0 <= n <= |owed| && reports == old(reports) + owed[..n])
              && (acked && dlqEnabled ==> reports == old(reports) + owed)
              && (output != old(output) && dlqEnabled ==> reports == old(reports) + owed)
      ensures var produced := ProducedFrom(rules, policies, audit, 0);
              && (output == old(output) || (produced.Some? && output == Store(old(output), produced.value)))
              && (acked && produced.Some? ==> output == Store(old(output), produced.value))
    {
      ghost var owed := ReportsFrom(rules, payload, policies, audit, 0);
      assert reports == reports + owed[..0] && owed[..|owed|] == owed;
      ghost var n := 0;
      for i := 0 to |policies|
        invariant output == old(output) && failures == old(failures)
        invariant n <= |owed| && owed[n..] == ReportsFrom(rules, payload, policies, audit, i)
        invariant reports == old(reports) + if dlqEnabled then owed[..n] else []
        invariant ProducedFrom(rules, policies, audit, 0) == ProducedFrom(rules, policies, audit, i)
      {
        var policy := policies[i];
        var v := EvaluateCompiledAuditRules(rules, policy, audit);
        match v {
          case Erred(index, error) =>
            NextOwed(owed, n);
            var ok := PublishAuditFailure(Report(payload, policy.name, policy.generation, index, ClassifyEvaluationError(index, error)));
            if !ok {
              return false;
            }
            n := n + 1;
          case Nothing =>
          case Produced(activity, _) =>
            acked := PublishActivity(activity);
            return;
        }
      }
      return true;
    }

    // What an acked message has left behind.
    ghost predicate Left(payload: string, output: seq<Activity>, reports: seq<Report>) {
      && (ActivityOf(rules, payload).Some? ==> Holds(output, ActivityOf(rules, payload).value.name))
      && (dlqEnabled ==> rules.isJson(payload) && forall x :: x in Reports(rules, payload) ==> x in reports)
    }

    lemma LeftStays(payload: string, output: seq<Activity>, output': seq<Activity>, reports: seq<Report>, reports': seq<Report>)
      requires Left(payload, output, reports) && output <= output' && reports <= reports'
      ensures Left(payload, output', reports')
    {
      if ActivityOf(rules, payload).Some? {
        var k :| 0 <= k < |output| && output[k].name == ActivityOf(rules, payload).value.name;
        assert output'[k].name == output[k].name;
      }
    }

    /** Any number of deliveries and redeliveries, of any messages. */
    method Deliver(payloads: seq<string>) returns (acks: seq<bool>)
      requires NamesDistinct(output)
      modifies this
      ensures |acks| == |payloads|
      // Without an unconfirmed publish every message is acked.
      ensures failures >= old(failures)
      ensures failures == old(failures) ==> forall i :: 0 <= i < |acks| ==> acks[i]
      // However often a message is delivered, the stream holds one activity for
      // it at most, and exactly one once some delivery was acked.
      ensures NamesDistinct(output) && old(output) <= output
      ensures forall k :: |old(output)| <= k < |output| ==> Owed(rules, payloads, output[k])
      ensures forall i :: 0 <= i < |acks| && acks[i] && ActivityOf(rules, payloads[i]).Some? ==>
                Holds(output, ActivityOf(rules, payloads[i]).value.name)
      // Everything published is what some message's event leads to.
      ensures forall k :: |old(output)| <= k < |output| ==> ToldBy(rules, payloads, output[k])
      // That is the message's own activity if no two of them share a name.
      ensures old(output) == [] && Separate(rules, payloads) ==>
        forall i :: 0 <= i < |acks| && acks[i] && ActivityOf(rules, payloads[i]).Some? ==>
          ActivityOf(rules, payloads[i]).value in output
      ensures forall i :: 0 <= i < |acks| && dlqEnabled && !rules.isJson(payloads[i]) ==> !acks[i]
      ensures forall i, x :: 0 <= i < |acks| && acks[i] && dlqEnabled && x in Reports(rules, payloads[i]) ==> x in reports
    {
      acks := [];
      for n := 0 to |payloads|
        invariant |acks| == n && NamesDistinct(output) && old(output) <= output
        invariant failures >= old(failures) && (failures == old(failures) ==> forall i :: 0 <= i < n ==> acks[i])
        invariant forall k :: |old(output)| <= k < |output| ==> Owed(rules, payloads, output[k])
        invariant forall i :: 0 <= i < n && acks[i] ==> Left(payloads[i], output, reports)
      {
        ghost var before, reported := output, reports;
        var acked := ProcessMessage(payloads[n]);
        acks := acks + [acked];
        StoreKeeps(before, ActivityOf(rules, payloads[n]));
        assert output != before ==> Owed(rules, payloads, output[|before|]);
        forall i | 0 <= i < n && acks[i] ensures Left(payloads[i], output, reports) {
          LeftStays(payloads[i], before, output, reported, reports);
        }
      }
      forall k | |old(output)| <= k < |output| ensures ToldBy(rules, payloads, output[k]) {
        OwedIsTold(rules, payloads, output[k]);
      }
      if old(output) == [] && Separate(rules, payloads) {
        AllOwnStored(rules, payloads, output);
      }
    }
  }

  lemma StoreKeeps(output: seq<Activity>, activity: Option<Activity>)
    requires NamesDistinct(output)
    ensures activity.Some? ==>
      var output' := Store(output, activity.value);
      && NamesDistinct(output') && output <= output' && Holds(output', activity.value.name)
      && (forall name :: Holds(output, name) ==> Holds(output', name))
  {
    if activity.Some? {
      var output' := Store(output, activity.value);
      assert !Holds(output, activity.value.name) ==> output'[|output|].name == activity.value.name;
      forall name | Holds(output, name) ensures Holds(output', name) {
        var k :| 0 <= k < |output| && output[k].name == name;
        assert output'[k].name == name;
      }
    }
  }

  // Whatever ingest reports can be re-evaluated without a missing reference.
  lemma ReportsSafe(r: Rules, payload: string)
    ensures forall x :: x in Reports(r, payload) ==> x.payload == payload && SafeToReEvaluate(r, x.payload)
  {
    if Decode(r, payload).Some? && Decode(r, payload).value.objectRef.Some? {
      var audit := Decode(r, payload).value;
      var ref := audit.objectRef.value;
      ReportsExact(r, payload, r.lookup(ref.apiGroup, ref.resource), audit, 0);
    }
  }

  // If ingest stored only such events, every audit event that any run of the
  // retry protocol can hand to the evaluator is safe to re-evaluate.
  lemma QueuedEventsSafe(r: Rules, env: Env, s: State, i: nat)
    requires Reachable(env, s) && IsEvent(s.broker, i) && s.broker.log[i].dl.eventType == Audit
    requires forall o :: IsEvent(s.broker, o) && s.broker.log[o].dl.retryCount == 0 && s.broker.log[o].dl.eventType == Audit ==>
               SafeToReEvaluate(r, s.broker.log[o].dl.payload)
    ensures SafeToReEvaluate(r, s.broker.log[i].dl.payload)
  {
    ReachableInv(env, s);
    var o := Origin(env, s, i);
  }

  // An error while matching is reported with the index of its rule, so ingest
  // never reports the error type reserved for match errors.
  lemma MatchErrorTypeUnused(r: Rules, payload: string)
    ensures forall x :: x in Reports(r, payload) ==> x.errorType != CelMatch
  {
    if Decode(r, payload).Some? && Decode(r, payload).value.objectRef.Some? {
      var audit := Decode(r, payload).value;
      var ref := audit.objectRef.value;
      ReportsExact(r, payload, r.lookup(ref.apiGroup, ref.resource), audit, 0);
    }
  }

  // ---------------------------------------------------------------------
  // Reindexing
  // ---------------------------------------------------------------------

  function Unlabelled(activity: Activity): Activity {
    activity.(labels := activity.labels - {POLICY_LABEL})
  }

  // What reindexing owes for a stored event: at most one activity.
  function ReindexFrom(r: Rules, policies: seq<CompiledPolicy>, audit: AuditEvent, i: nat): seq<Activity>
    requires i <= |policies|
    decreases |policies| - i
  {
    if i == |policies| then []
    else match Evaluation(r, policies[i], audit)
      case Produced(activity, _) => [activity.(labels := activity.labels[POLICY_LABEL := policies[i].name])]
      case _ => ReindexFrom(r, policies, audit, i + 1)
  }

  function ReindexOf(r: Rules, audit: AuditEvent): seq<Activity> {
    match audit.objectRef
    case None => []
    case Some(ref) => ReindexFrom(r, r.lookup(ref.apiGroup, ref.resource), audit, 0)
  }

  function ReindexAll(r: Rules, batch: seq<AuditEvent>): seq<Activity> {
    if batch == [] then [] else ReindexAll(r, batch[..|batch| - 1]) + ReindexOf(r, batch[|batch| - 1])
  }

  method EvaluateAuditBatch(r: Rules, batch: seq<AuditEvent>) returns (activities: seq<Activity>)
    ensures activities == ReindexAll(r, batch)
  {
    activities := [];
    for n := 0 to |batch|
      invariant activities == ReindexAll(r, batch[..n])
    {
      var audit := batch[n];
      assert batch[..n + 1][..n] == batch[..n];
      if audit.objectRef.None? {
        continue;
      }
      var policies := r.lookup(audit.objectRef.value.apiGroup, audit.objectRef.value.resource);
      ghost var before := activities;
      ghost var found := false;
      for i := 0 to |policies|
        invariant !found && activities == before
        invariant ReindexOf(r, audit) == ReindexFrom(r, policies, audit, i)
      {
        var v := EvaluateCompiledAuditRules(r, policies[i], audit);
        if v.Produced? {
          var activity := v.activity.(labels := v.activity.labels[POLICY_LABEL := policies[i].name]);
          activities := activities + [activity];
          found := true;
          break;
        }
      }
      assert activities == before + ReindexOf(r, audit);
    }
    assert batch[..|batch|] == batch;
  }

  lemma {:induction false} ReindexFromAgrees(r: Rules, policies: seq<CompiledPolicy>, audit: AuditEvent, i: nat)
    requires i <= |policies|
    ensures var rebuilt, live := ReindexFrom(r, policies, audit, i), ProducedFrom(r, policies, audit, i);
            if live.None? then rebuilt == [] else |rebuilt| == 1 && Unlabelled(rebuilt[0]) == live.value
    ensures forall k :: i <= k && FirstMatch(r, policies, audit, k) && ReindexFrom(r, policies, audit, i) != [] ==>
              ReindexFrom(r, policies, audit, i)[0].labels ==
              ProducedFrom(r, policies, audit, i).value.labels["activity.miloapis.com/policy-name" := policies[k].name]
    decreases |policies| - i
  {
    if i < |policies| {
      var v := Evaluation(r, policies[i], audit);
      FirstDecidingRule(r, policies[i], audit);
      if v.Produced? {
        var labels := v.activity.labels;
        assert POLICY_LABEL !in labels;
        assert labels[POLICY_LABEL := policies[i].name] - {POLICY_LABEL} == labels;
      } else {
        ReindexFromAgrees(r, policies, audit, i + 1);
      }
    }
  }

  // The policy that an event's activity came from.
  ghost predicate CameFrom(r: Rules, audit: AuditEvent, name: string) {
    audit.objectRef.Some? &&
    var policies := r.lookup(audit.objectRef.value.apiGroup, audit.objectRef.value.resource);
    exists k :: FirstMatch(r, policies, audit, k) && policies[k].name == name
  }

  // The live activity, which names no policy, with the name of its policy.
  ghost predicate Relabelled(r: Rules, audit: AuditEvent, rebuilt: Activity, live: Activity) {
    && rebuilt.(labels := live.labels) == live && "activity.miloapis.com/policy-name" !in live.labels
    && exists name :: CameFrom(r, audit, name) && rebuilt.labels == live.labels["activity.miloapis.com/policy-name" := name]
  }

  // Reindexing a stored event builds the activity that ingest published for
  // it, with the name of its policy for a label, and none where ingest
  // published none.
  lemma ReindexMatchesIngest(r: Rules, audit: AuditEvent, payload: string)
    requires Decode(r, payload) == Some(audit)
    ensures var rebuilt, live := ReindexOf(r, audit), ActivityOf(r, payload);
            if live.None? then rebuilt == [] else |rebuilt| == 1 && Relabelled(r, audit, rebuilt[0], live.value)
  {
    if audit.objectRef.Some? {
      var ref := audit.objectRef.value;
      var policies := r.lookup(ref.apiGroup, ref.resource);
      ReindexFromAgrees(r, policies, audit, 0);
      ProducedByFirstMatch(r, policies, audit, 0);
      if ActivityOf(r, payload).Some? {
        var k :| FirstMatch(r, policies, audit, k);
        assert CameFrom(r, audit, policies[k].name);
      }
    }
  }
}
