# Activity service: verified model

The activity service turns Kubernetes audit events and events into a feed of
human-readable activities. Policies are evaluated on each event as it arrives
on a NATS JetStream stream; failures become dead letters that are retried; the
results are stored in ClickHouse and queried, watched and paged by clients.
This project models the parts of the service where several steps, replicas or
languages have to agree, and proves that they do, or exactly when they do.

Check it with `dafny verify dfyconfig.toml` (Dafny 4.11).

## What is modelled

**Dead letters** (`DeadLetters`, `Backoff`, `RetryProtocol`, `RetryPaths`,
`RetryRecords`, `RetryDrain`, `RetryScans`, `RetryController`, `Ingest`). The dead-letter queue
is a step system in which any number of deliveries at competing replicas
interleave, one broker request at a time, with ingest, policy changes, requests
that arrive late or never, lost replies, late acks, redelivery and crashes. Over
every run each retry is recorded once and each event is republished once.
Nothing is lost exactly when no two dead letters that ingest stores share a
lineage, that is event type, policy, payload hash and second of failure: for
each sequence of dead letters, `RetryProtocol.SafeIffNoClash` is an
if-and-only-if. The 32-bit hash must not
collide, and no event may fail twice in one second.
`RetryRecords` says what a failed attempt leaves behind and which later scans
want it: a record is never under a version its policy has not had, and exactly
the scans for a newer version retry it.
`RetryController` is the retry loop as methods of a class whose broker link may
fail at any request, and behind which ingest and other replicas take any steps
of the protocol before every request and fetch. Each request is a step of the
system, so the protocol's guarantees hold of the controller whatever the others
do (`Controller.Sound`). While metadata updates succeed, the policy cache holds
the policy and nobody else acts, a policy-triggered scan evaluates no message
twice and does bounded work; a failed update makes it evaluate one again at
once (`RetryScans.EvaluatedTwice`). It evaluates no event twice if none had two
wanted messages in the queue, and of one that had it can evaluate both. The work
of the periodic drain is bounded under like conditions (`RetryDrain`).
`Ingest` covers what an acked audit message has left behind, how re-evaluation
of a dead letter relates to ingesting it again, and that reindexing builds the
activity that ingest published. What it publishes and reports is stated of the
decoded event, the policies and their rules (`Ingest.ActivityOfMeans`,
`Ingest.ReportsMean`).

**Filters** (`CelSyntax`, `SqlSyntax`, `CelConverter`, `SqlConverter`,
`SqlLexing`, `FilterParsing`, `SqlPrinting`, `SqlRendering`, `ConditionLists`,
`TextReading`, `FilterMeaning`, `Activities`, `AuditLogs`, `FilterReading`, `FilterKinds`,
`FilterAgreement`, `LostGrouping`, `ParameterText`).
A CEL filter is compiled to the text of a SQL condition with numbered
parameters. `SqlConverter` is the converter object with its argument list; it
spells the tokens that `CelConverter` specifies. `SqlLexing` and
`FilterParsing` read the emitted text back with a lexer and a
recursive-descent parser, and the result is the intended tree exactly for
expressions that keep bare comparisons and negations out of the operands of
comparisons. `FilterMeaning` compares the value of that tree on a row with the
value CEL gives the filter, and `Activities` concludes that a watch and a query
select the same activities; `AuditLogs` relates logged events to their rows.
`FilterReading` says what a query answers for any
accepted filter, `FilterKinds` and `FilterAgreement` when that is a watch's
answer for filters that are not typed, and `LostGrouping` for equalities of
equalities, whose grouping the text loses.

**Queries and paging** (`WhereClause`, `ClauseBuilding`, `QueryBuilder`,
`ActivityAnswers`, `AuditQueries`, `AuditAnswers`, `EventQueries`,
`EventAnswers`, `Keyset`, `AuditPaging`, `OffsetPaging`). The WHERE clauses of
activity, audit-log and event queries are built step by step from the source's
strings, bind their positional parameters in order, read back as the
conjunction of what was asked for and select exactly the requested rows: of a
request, `ActivityAnswers`, `AuditAnswers` and `EventAnswers` say which
activities, logged events and Kubernetes events it selects and when it is
refused. Keyset pages of activities read in strictly descending order, repeat
nothing and miss no row that was present throughout, whatever is inserted or
deleted meanwhile. A page of audit logs is continued exactly where it ended only
under a condition that most logged events do not meet (`AuditPaging`).
Offset pages of Kubernetes events tile the result exactly when no row lies
beyond the first window that is short or holds a row that does not decode.

**Policy cache** (`PolicyCache`): two indexes, swap-removed in place, that stay
exactly the ready policies the informer knows, compiled rule by rule, so that a
lookup answers with exactly those of its group and resource or kind.

**Exporter queue** (`ExporterQueue`): a bounded queue that drops its oldest job,
with producer and drain loop interleaved at single channel operations.

**NKey generator** (`Subjects`, `AccountUsers`, `NkeyGenerator`): keys that are
never replaced, a guarded rewrite of the list of authorised users with other
writers at work and requests or answers lost between API calls, and users whose
grants keep clusters apart.

**Field selectors** (`FieldSelector`): printing from flags, parsing back, SQL.

Code that changes state in the source is a method or a class here, proved
against a function of the old state; code that computes a value is a function.

## What the code does against expectation

These are proved as lemmas with a concrete witness or as an exact condition.

- Two payloads with the same 32-bit hash lose an event
  (`RetryProtocol.CollisionLosesEvent`). So does one event that is republished
  and fails again within the same second, whatever the hash: its second
  republish is answered as a duplicate and acked
  (`RetryProtocol.RepeatLosesEvent`).
- A message that is not JSON is never acked while the dead-letter queue is
  enabled, because the dead letter that would carry it cannot be marshalled
  (`Ingest.Processor.ProcessMessage`).
- An activity's name is 48 bits of a hash. Two activities of one name lose the
  second although its message is acked (`Ingest.StoredIffSeparate`). The hash is
  of the audit ID, so two messages of one audit ID share a name under one policy
  even if the events differ (`Ingest.SeparateIffNoClash`).
- Re-evaluation is stricter than ingest: a policy that fails behind the first
  match keeps a dead letter unresolved although ingesting the event again would
  leave none (`Ingest.UnresolvedThoughClean`).
- A comparison used as an operand of a comparison loses its grouping, so
  different trees are written alike (`FilterParsing.GroupingIsLost`).
  `true == (spec.changeSource == "human")` is answered by a watch and is an error
  for a query (`LostGrouping.GroupingFailsQuery`);
  `spec.summary == (spec.changeSource == true)` is false for a watch and selects
  rows for a query (`LostGrouping.GroupingSelectsOthers`). Typed equalities of
  equalities agree exactly when the inner ones compare truth values
  (`LostGrouping.NestedAgreesIff`).
- A failed metadata update is answered by a plain NAK, after which the same scan
  evaluates the message again (`RetryScans.EvaluatedTwice`). A lost ack leaves
  an event with two messages, and a scan evaluates it for both
  (`RetryScans.LostAckLeavesTwo`, `RetryScans.SameEventTwice`).
- Activity fields are dynamically typed, so comparing one with a number is
  accepted: a watch finds nothing, and a query fails
  (`FilterKinds.MixedTypesDisagree`). The converter takes `has(field)` for the
  field: alone it is true for a watch and no condition for a query
  (`FilterKinds.HasIsNoCondition`), and compared with a field it is false for a
  watch while the query compares the two fields
  (`FilterKinds.ComparedTestDiffers`).
- The cursor of an audit-log page holds the stage time of its last event, while
  the query compares the time the request was received. The next page repeats
  that event whenever the two differ, and where they agree it loses or repeats
  events of the same millisecond whose IDs do not follow the ORDER BY
  (`AuditPaging.ContinuesExactlyIff`, `AuditPaging.EventSkipped`). If the last
  event reached its stage after everything on its page was received, the client
  gets the same page for ever (`AuditPaging.SamePageForEver`).
- The field selectors `source.component` and `source.host` read the reporting
  controller and instance of an event, not its deprecated source
  (`EventAnswers.SelectorReads`).
- An event row that does not decode makes its page short, which ends paging
  and hides the rest (`OffsetPaging.DamagedRowHidesRest`); a cursor that expires
  while its query runs sends the client back to the second page
  (`OffsetPaging.LapseRestarts`).
- A policy that stays ready but whose kind can no longer be resolved leaves its
  old version in the cache (`PolicyCache.UpdateIsExact`).
- The guard on the ConfigMap looks at an earlier read than the one the write is
  based on (`NkeyGenerator.GuardExact`). The comment on `clusterFromUser` calls
  its result display only, yet the guard uses it to find the cluster's Secret,
  so a changed subject prefix disarms the guard
  (`NkeyGenerator.PrefixChangeDisarmsGuard`).
- Flag validation of event queries accepts values with surrounding white space,
  which the parser trims (`FieldSelector.ValidatedFlagsArrive`).
- The retry filter's API group and kind are carried but no decision reads them.

## Assumptions

- Deduplication windows do not expire, and a message ID is an injective record
  of its parts; only the payload hash is an arbitrary function.
- A batch fetch returns strictly before its five-second wait is over.
- What an abandoned request asks for reaches the broker once at most.
- Replicas write timestamps in one time zone; `metav1.Time` has second
  precision.
- SQL comparisons associate to the left, and OR binds weaker than AND, AND
  weaker than NOT, NOT weaker than comparisons; AND, OR and membership have
  their usual meaning on rows. Values of different kinds (string, number, time)
  are not compared: the query fails. The right side of IN is a list.
- Numbers are compared by value across CEL's numeric types.
- A field that a logged event or a Kubernetes event does not have reads as empty
  or zero, for CEL as in the row; a JSON number is extracted as its digits. An
  audit ID compares with text as its own text.
- An activity table is a set of activities with distinct names, and the
  timestamp column equals the creation timestamp.
- A ConfigMap resource version names one content.
- JSON, base64 and SHA-256 are codecs with the inverse laws the code relies on.

## Model

| member | source | states |
|---|---|---|
| RetryProtocol.NoDeadLetterLost | internal/activityprocessor/dlq_retry.go:427-724 | in every reachable state each parsable dead letter ever stored still has a copy in the queue, or the source stream accepted its own payload after ingest had stored it, provided no two events that ingest stored for its lineage clash |
| RetryProtocol.SafeIffNoClash | internal/activityprocessor/dlq_retry.go:639-749 | for every sequence of dead letters that ingest may store, no run loses one of them exactly when no two of them share a lineage (event type, policy, payload hash and second of failure), repeats without a source stream excepted |
| RetryProtocol.SafeIffHashInjective | internal/activityprocessor/dlq_retry.go:639-749 | over the sequences that repeat no event, that guarantee holds exactly when the payload hash is injective |
| RetryProtocol.CollisionLosesEvent | internal/activityprocessor/dlq_retry.go:744-749 | for any two colliding payloads, some run loses one of their events |
| RetryProtocol.RepeatLosesEvent | internal/activityprocessor/dlq_retry.go:639-677 | whatever the hash, a republished event that fails again within the second is acked as a duplicate and gone, never put back after it was stored |
| RetryProtocol.RecordedOnce | internal/activityprocessor/dlq_retry.go:681-724 | at most one dead letter is ever stored per lineage and retry count of at least one, whatever acks and replies are lost |
| RetryProtocol.RepublishedOnce | internal/activityprocessor/dlq_retry.go:639-677 | the source stream accepts each republished event once |
| RetryProtocol.LineageAdvances | internal/activityprocessor/dlq_retry.go:681-715 | along a lineage a higher retry count was stored later and carries a policy version that is no smaller |
| RetryProtocol.Origin | internal/activityprocessor/dlq_retry.go:681-715 | every queued event is a retry of one that ingest stored, equal to it except for retry metadata |
| RetryProtocol.ReachableInv | internal/activityprocessor/dlq_retry.go:427-724 | the protocol's invariant holds in every reachable state |
| RetryProtocol.StepKeeps | internal/activityprocessor/dlq_retry.go:427-619 | every step of every replica, of the broker and of ingest keeps that invariant |
| RetryProtocol.RequestKeeps | internal/activityprocessor/dlq_retry.go:513-575 | so does each publish, ack or NAK, answered, with its answer lost, or not arriving in time, and one that arrives later after all |
| RetryProtocol.AppendKeeps | internal/processor/dlq.go:271-345 | so does a new dead letter, or a message that does not parse |
| RetryProtocol.NewRecordKeeps | internal/activityprocessor/dlq_retry.go:681-724 | so does storing the successor of a failed retry, which has its parent, and no twin, in the log |
| RetryProtocol.RepublishKeeps | internal/activityprocessor/dlq_retry.go:639-677 | so does a republish, deduplicated or not |
| RetryProtocol.SettleKeeps | internal/activityprocessor/dlq_retry.go:553-575 | so does removing an acked message: what it carried is carried on |
| RetryPaths.PathIsRun | internal/activityprocessor/dlq_retry.go:513-575 | the requests a replica makes for one message, answered in any way, are a run of the protocol ending with that message done |
| RetryPaths.HandlingLeads | internal/activityprocessor/dlq_retry.go:453-575 | handling a fetched message, with the policy and the clock it met, is a run of the step system to the state that the requests leave |
| RetryPaths.FetchLeads | internal/activityprocessor/dlq_retry.go:427-450 | so is a fetch, with the acks that reach the broker before it |
| RetryPaths.HandlingEffect | internal/activityprocessor/dlq_retry.go:470-575 | handling one message stores at most one new one, which the running scan does not want, and brings nothing back early |
| RetryPaths.FetchKeeps | internal/activityprocessor/dlq_retry.go:217-227 | a fetch within a scan returns no message already evaluated or skipped, because the skip delay covers the scan and one fetch wait |
| RetryPaths.BatchStep | internal/activityprocessor/dlq_retry.go:470-575 | each handled message pays from a measure of the queue that bounds the scan |
| RetryRecords.DecisionMeans | internal/activityprocessor/dlq_retry.go:453-575 | what is done about a fetched message: a scan retries what failed under an older version of its policy, the drain what is due or whose policy has changed, under the newest version; the rest comes back later |
| RetryRecords.HandlingRecords | internal/activityprocessor/dlq_retry.go:513-575 | handling a message stores at most one new one, the record of its failure: the same event with one retry more, under the newest version it was held against, due after the wait for that many retries |
| RetryRecords.RequestRecords | internal/activityprocessor/dlq_retry.go:639-724 | so does each of its requests, whatever others did to the queue before it arrived, and a republish puts back this event's payload under its own ID |
| RetryRecords.RecordWanted | internal/activityprocessor/dlq_retry.go:470-513 | a record is wanted exactly by the scans for a version newer than the ones its event was held against |
| RetryRecords.NextScanRetries | internal/activityprocessor/dlq_retry.go:470-535 | what a handling recorded is, in every state that any run leads to, retried by the scan for a newer version that fetches it, and put back by one for the same version or an older one |
| RetryRecords.VersionsWereActive | internal/activityprocessor/dlq_retry.go:507-513 | over every run, a failed retry is recorded under the version of the message retried or under a generation that was the active one of its policy |
| RetryController.Link.PublishDlq | internal/activityprocessor/dlq_retry.go:681-724 | after whatever others did first, the queue holds the message if the publish arrived and is no duplicate; it may arrive late or lose its answer |
| RetryController.Link.Fetch | internal/activityprocessor/dlq_retry.go:427-450 | what a timed fetch may return, with others acting before: distinct visible messages, hidden again for the ack wait |
| RetryController.Controller.UpdateAndRepublishMetadata | internal/activityprocessor/dlq_retry.go:681-724 | the stamped successor, that is retry count, policy version, next retry time and resource of the retried event, is what the protocol asks for |
| RetryController.Controller.RecordFailure | internal/activityprocessor/dlq_retry.go:584-619 | on a failed re-evaluation the successor is stored before the original is acked, and a failed store leaves the original |
| RetryController.Controller.Republish | internal/activityprocessor/dlq_retry.go:639-677 | on success the payload is republished before the ack |
| RetryController.Controller.Screen | internal/activityprocessor/dlq_retry.go:453-505 | which messages a pass attempts, and the delay with which it puts the others back |
| RetryController.Controller.HandleMessage | internal/activityprocessor/dlq_retry.go:453-575 | one message's requests follow the protocol with others acting in between, and leave the queue as their replay says if nobody did; what is stored then is the record of this event's failure under the generation that was read |
| RetryController.Controller.ProcessRetryBatch | internal/activityprocessor/dlq_retry.go:427-578 | a batch handles each fetched message once, in order, up to the end of its context, and counts outcomes exactly |
| RetryController.Controller.Sound | internal/activityprocessor/dlq_retry.go:427-578 | whatever ingest, other replicas and late requests do between this replica's requests, the queue satisfies the protocol's invariant and has kept every event whose lineage is free of clashes; each method of the controller keeps that state |
| RetryController.Controller.ScanForPolicy | internal/activityprocessor/dlq_retry.go:297-373 | while metadata updates succeed, the cache holds the policy and nobody else acts, a scan evaluates no message twice and none that it stored, no event twice unless it had two wanted messages in the queue, and handles a bounded number of messages; it stops only when a fetch finds nothing, its time is up or its context ends |
| RetryController.Controller.RetryForPolicy | internal/activityprocessor/dlq_retry.go:287-373 | under the same conditions the same of a policy-triggered retry, which does nothing when disabled or already running; whatever others do, it retries exactly the fetched events of its policy that failed under an older version, under the newest version, and puts the others back for 35 seconds; the evaluator sees exactly the due audit events, in order |
| RetryScans.EvaluatedTwice | internal/activityprocessor/dlq_retry.go:553-575 | a metadata update that fails brings its message back at once: a run in which one scan evaluates a message twice in one instant |
| RetryScans.SameEventTwice | internal/activityprocessor/dlq_retry.go:470-575 | whenever an event has two wanted messages in the queue, a scan that nobody disturbs evaluates it for both |
| RetryScans.LostAckLeavesTwo | internal/activityprocessor/dlq_retry.go:584-619 | a recorded failure whose ack does not arrive leaves such a queue |
| RetryController.Controller.PeriodicRetry | internal/activityprocessor/dlq_retry.go:233-283 | a periodic run ends, and only when a fetch finds nothing or its context ends, its counters are those of the messages it handled, and while policies do not change, metadata updates succeed and nobody else acts, what was queued at its start bounds its handlings |
| RetryDrain.HandlingSpends | internal/activityprocessor/dlq_retry.go:470-575 | each handling during a periodic run uses up one of the finitely many visits its message can still have, counting those of a successor it stores |
| RetryDrain.DefaultsSpaced | internal/activityprocessor/dlq_retry.go:88-100 | the default settings leave a minute between two visits of one message, which is what that bound assumes |
| Backoff.BackoffBounded | internal/activityprocessor/dlq_retry.go:727-742 | the wait lies between zero and the configured maximum |
| Backoff.BackoffExact | internal/activityprocessor/dlq_retry.go:727-742 | the wait is base times multiplier to the retry count in whole nanoseconds, up to the maximum, and the maximum beyond 40 retries |
| Backoff.DefaultWaits | internal/activityprocessor/dlq_retry.go:88-100 | with the default settings it is a minute doubled up to ten times and a day from then on |
| Backoff.BackoffMonotone | internal/activityprocessor/dlq_retry.go:727-742 | more retries never shorten the wait, also across the exponent cap and int64 overflow |
| Backoff.BackoffShrinksBelowOne | internal/activityprocessor/dlq_retry.go:727-742 | a multiplier below one does shorten it |
| Backoff.DeferralWithinInterval | internal/activityprocessor/dlq_retry.go:484-505 | a deferred event returns after a positive delay, within one interval and never after it is due: exactly when due, or after a whole interval |
| Backoff.StoredBackoffDue | internal/activityprocessor/dlq_retry.go:622-631 | second-precision storage makes an event due less than a second early and never late |
| Ingest.FirstDecidingRule | internal/activityprocessor/policycache.go:467-507 | a policy's verdict is that of its first valid rule that matches or fails |
| Ingest.EvaluateCompiledAuditRules | internal/activityprocessor/policycache.go:467-507 | the evaluation loop returns that verdict |
| Ingest.VerdictMeans | internal/activityprocessor/policycache.go:467-507 | that verdict read off the rules: the activity that the first matching or failing rule makes of the event, with every field of it, or that rule's index and error |
| Ingest.ProducedByFirstMatch | internal/activityprocessor/processor.go:1066-1123 | an event's activity is the one of the first policy that matches, and there is one exactly when some policy matches |
| Ingest.ActivityOfMeans | internal/activityprocessor/processor.go:1066-1123 | a payload leads to an activity exactly if it decodes to an event with a reference and the first policy that has something to tell tells that activity of it, named by the hash of audit ID, group and kind |
| Ingest.SeparateIffNoClash | internal/processor/activity.go:21-31 | if an audit ID stands for one event, different activities have different names exactly when the short hash tells their inputs apart |
| Ingest.ReportsExact | internal/activityprocessor/processor.go:1066-1123 | dead letters are owed for exactly the policies that fail before the first match |
| Ingest.ReportsMean | internal/activityprocessor/processor.go:1078-1107 | a dead letter is owed exactly for a payload that does not decode and for each failure before the first match, with its policy's version, the rule and the kind of error |
| Ingest.Processor.PublishActivity | internal/activityprocessor/processor.go:1222-1245 | a publish stores an activity at most once per name and may succeed without its confirmation |
| Ingest.Processor.PublishAuditFailure | internal/processor/dlq.go:271-345 | a confirmed dead letter has been stored; one whose payload is not JSON never is; with the queue disabled nothing is |
| Ingest.Processor.ProcessMessage | internal/activityprocessor/processor.go:988-1157 | a message is asked for back exactly if a publish was not confirmed; an ack means every owed dead letter was accepted and then the activity; without them the activity is not published; a message that is not JSON is never acked; the activity is what the first deciding rule of the first matching policy makes of this event, under its audit ID, and each dead letter tells a failing policy's version, rule and kind of error |
| Ingest.Processor.Deliver | internal/activityprocessor/processor.go:940-1157 | over any deliveries and redeliveries, which are all acked unless a publish was not confirmed, the output holds one activity per name, each told by some message's event; everything acked is covered, and by its own activity when no two share a name |
| Ingest.StoredIffSeparate | internal/activityprocessor/processor.go:1222-1245 | when every message is delivered and acked, each has its own activity stored exactly when activities of different content have different names |
| Ingest.ReEvaluateDeadLetter | internal/activityprocessor/processor.go:1169-1195 | resolved exactly when no policy for the event fails; otherwise the error is that the payload does not decode, or that of the first policy that fails |
| Ingest.ResolvedIngestsCleanly | internal/activityprocessor/processor.go:1169-1195 | a resolved event leaves no dead letter when it is ingested again |
| Ingest.UnresolvedThoughClean | internal/activityprocessor/processor.go:1169-1195 | an event that would ingest cleanly is kept unresolved exactly when a policy fails behind the first match |
| Ingest.ReportsSafe | internal/activityprocessor/processor.go:992-1014 | every dead letter of ingest either does not decode or refers to an object |
| Ingest.QueuedEventsSafe | internal/activityprocessor/processor.go:1169-1195 | so re-evaluation is safe on every event that any run of the retry protocol can queue |
| Ingest.MatchErrorTypeUnused | internal/activityprocessor/processor.go:1199-1207 | ingest never uses the error type meant for match errors |
| Ingest.EvaluateAuditBatch | internal/reindex/batch.go:123-178 | the reindex loop builds one activity per event, from the first policy that produces one |
| Ingest.ReindexMatchesIngest | internal/processor/activity.go:21-120 | reindexing builds the activity that ingest published, links and details included, with the name of the policy it came from for a label, up to the creation timestamp, and none where ingest published none |
| CelSyntax.MappedFieldValidates | internal/cel/activity_filter.go:24-170 | every field that has a column passes validation, with everything on its path, whether it is read or tested for |
| CelConverter.ConvertibleValidates | internal/cel/filter.go:20-50 | the validator refuses no filter that the converter accepts |
| CelConverter.PlaceholdersInOrder | internal/cel/cel.go:151-157 | the placeholders of an accepted expression are numbered left to right from the first index, one for each argument |
| SqlConverter.BaseSQLConverter.AddArg | internal/cel/cel.go:151-157 | an argument is appended, named and answered with its placeholder |
| SqlConverter.BaseSQLConverter.ConvertExpr | internal/cel/cel.go:160-175 | the text written and the arguments collected are those of the token-level translation, which takes a test for a field as the field, and errors are its errors |
| SqlConverter.BaseSQLConverter.ConvertCall | internal/cel/cel.go:177-318 | the same for every operator and function |
| SqlConverter.BaseSQLConverter.ConvertList | internal/cel/cel.go:340-350 | the same for list literals |
| SqlConverter.EachIsItems | internal/cel/cel.go:340-350 | joining the elements' texts spells the translated list |
| FilterParsing.ParsesAsIntended | internal/cel/cel.go:177-318 | parsing the emitted tokens gives back the intended tree exactly when no comparison or membership test has a bare one, or a negation, as an operand that parentheses would have to protect |
| SqlLexing.LexText | internal/cel/cel.go:177-350 | the text of tokens lexes back to those tokens, if no two of them run into each other and no literal holds a quote |
| TextReading.TextReadsAsIntended | internal/cel/cel.go:151-350 | so the emitted text itself, lexed and parsed, is the intended tree exactly for those expressions |
| FilterParsing.ParsesInside | internal/cel/cel.go:177-318 | the text keeps that reading inside a longer condition |
| FilterParsing.GroupingIsLost | internal/cel/cel.go:308-318 | two filters that are different trees are written alike, and one of them is not safe |
| LostGrouping.NestedReads | internal/cel/cel.go:308-318 | an equality whose right operand is an equality is read as grouped to the left |
| LostGrouping.NestedAgreesIff | internal/cel/cel.go:308-318 | for a typed filter of that form, watch and query agree on every activity when the inner operands are truth values, and otherwise the query fails while every watch answers |
| LostGrouping.GroupingFailsQuery | internal/cel/cel.go:308-318 | `true == (spec.changeSource == s)` is accepted, answered by every watch and an error for every query, for any text s |
| LostGrouping.GroupingSelectsOthers | internal/cel/cel.go:308-318 | `spec.summary == (spec.changeSource == true)` is accepted, false for every watch, and selects the rows whose summary is the change source |
| FilterParsing.ChainParse | internal/cel/cel.go:177-318 | how any emitted text is read: its first operand, then its comparisons from left to right |
| FilterParsing.ShapeIsMeant | internal/cel/cel.go:177-318 | that reading is the intended tree exactly for safe expressions |
| FilterMeaning.KeepsValue | internal/cel/cel.go:160-350 | the intended SQL has, on a row, the value that CEL gives the filter on the object, for filters typed whatever the row holds; the others are in `FilterKinds` |
| FilterMeaning.TypedIsAccepted | internal/cel/cel.go:160-350 | neither the validator nor the converter refuses a typed filter |
| FilterMeaning.PositionIsContains | internal/cel/cel.go:266-277 | position above zero is containment |
| Activities.RelatedUIDs | internal/cel/activity_filter.go:396-413 | the watch side computes exactly the stored column, in order |
| Activities.RelatedUIDsExact | migrations/011_activities_related_uids.sql:9-15 | the column is the distinct non-empty UIDs of the resource, the related and the linked resources |
| Activities.ActivityStored | migrations/007_activities_table_v2.sql:22-78 | each column by its name, with the field of the activity that the schema derives it from |
| Activities.ActivityFieldsMapped | internal/cel/activity_filter.go:76-160 | exactly the documented fields have a column, and the related UIDs one for membership |
| Activities.RowAgreesWithMap | internal/cel/activity_filter.go:353-391 | every filterable field has the same value in the activity's map and in its row |
| Activities.WatchAgreesWithQuery | internal/cel/activity_filter.go:328-349 | for a typed filter whose text keeps its meaning, a watch delivers an activity exactly when a query selects its row by the filter's text with its arguments bound; untyped filters are in `FilterKinds` and `FilterAgreement`, lost meanings in `LostGrouping` |
| AuditLogs.LogStored | migrations/001_initial_schema.sql:48-102 | each column of the audit-log table by its name, with the field of the logged event that the schema derives it from |
| AuditLogs.LogFieldsMapped | internal/cel/filter.go:56-108 | exactly the documented fields of a logged event have a column |
| AuditLogs.LogRowAgreesIff | internal/cel/filter.go:56-108 | every field a filter may use has the same value in the event and in its row, exactly if the UUID column keeps the audit ID and the 16-bit column the status code |
| FilterReading.ReadsAs | internal/cel/cel.go:151-350 | a query by any accepted filter answers with the value of the tree its text is read as, or fails if it is read as none |
| FilterKinds.AnswersIffRuns | internal/cel/cel.go:151-350 | a query by any accepted filter answers on every row or fails on every row, as the kinds of its operands decide |
| FilterKinds.RunsIffTyped | internal/cel/cel.go:160-350 | for filters that mix no truth value with a number and compare no test, the query runs exactly when the filter is typed |
| FilterKinds.AgreeIffTyped | internal/cel/activity_filter.go:328-349 | for those filters, watch and query give one answer on an activity, or both none, exactly when the filter is typed or the watch has no answer |
| FilterAgreement.AgreeEverywhereIff | internal/cel/activity_filter.go:328-349 | for those filters, watch and query agree on every activity exactly when the filter is typed or no watch ever has an answer |
| FilterAgreement.PlainAgreeIff | internal/cel/activity_filter.go:328-349 | without a junction or a test that condition is one of the filter's operand types alone |
| FilterKinds.MixedTypesDisagree | internal/cel/cel.go:308-318 | a comparison of a field with a number is accepted, false for every watch and an error for every query |
| FilterKinds.HasIsNoCondition | internal/cel/activity_filter.go:76-160 | a test for a field is accepted, true for every watch and no condition for a query |
| FilterKinds.ComparedTestDiffers | internal/cel/activity_filter.go:76-160 | a compared test is accepted, false for every watch, and selects the rows on which the two fields are equal |
| ParameterText.ReplaceOne | internal/storage/clickhouse.go:805-808 | replacing one parameter's name in the text replaces its placeholder and nothing else, also for arg1 and arg10 |
| ParameterText.Positional | internal/storage/clickhouse.go:805-808 | the loop over arguments turns every placeholder into a ? |
| FilterReading.FilterOffset | internal/cel/cel.go:151-157 | a filter's text and arguments do not depend on where its numbering starts |
| FilterReading.ReadOffset | internal/cel/cel.go:151-157 | nor does the value its text is read to have |
| WhereClause.ArgumentsBindInOrder | internal/storage/clickhouse.go:747-832 | for every mix of scope, times, search, filter and cursor, the k-th ? of the clause is bound to the k-th argument |
| WhereClause.ClauseAnswers | internal/storage/clickhouse.go:747-832 | with any accepted filter, the text of the clause with its arguments answers on a row as its conditions do together: each fixed condition as meant, the filter as it does alone, and nothing if it fails |
| ConditionLists.ClauseParses | internal/storage/clickhouse.go:830-832 | conditions joined by AND read back as their conjunction |
| ConditionLists.JoinedTexts | internal/storage/clickhouse.go:830-832 | joining the conditions' texts spells the whole clause |
| WhereClause.ClauseSelects | internal/storage/clickhouse.go:747-832 | with a filter that is typed and keeps its meaning, the clause selects exactly the rows that pass scope, time range, search, filter and cursor |
| WhereClause.ClauseReadsBack | internal/storage/clickhouse.go:747-832 | the clause with its ? lexes, binds and parses to the conjunction of its conditions |
| WhereClause.UserMeans | internal/storage/clickhouse.go:742-745 | a user's scope is what the user did and the platform events about the user's account |
| WhereClause.PastMeans | internal/storage/clickhouse.go:815-828 | the cursor condition selects the rows past the cursor |
| WhereClause.CursorNarrows | internal/storage/clickhouse.go:815-828 | the next page's query is the first one's, past the cursor |
| ClauseBuilding.AddFilter | internal/storage/clickhouse.go:799-813 | the filter's condition and arguments, or why it is refused, added to what is written so far |
| ClauseBuilding.ConvertFilter | internal/storage/clickhouse.go:799-813 | converting a filter and making its parameters positional gives its text with a ? for each argument |
| QueryBuilder.BuildActivityQuery | internal/storage/clickhouse.go:747-832 | the builder, writing the source's own strings, returns the clause of the requested conditions in order with their arguments, or the first error |
| QueryBuilder.FixedTextIs | internal/storage/clickhouse.go:742-828 | each fixed condition's tree, written out, is the string in the source |
| QueryBuilder.TextsJoined | internal/storage/clickhouse.go:830-832 | the joined texts of the conditions are the text of the clause |
| ActivityAnswers.RequestSelects | internal/storage/clickhouse.go:742-832 | the query built for a request, with a filter that is typed and keeps its meaning, keeps the row of an activity exactly if the activity is in the request's scope and time range, mentions a word of the search, passes the filter as a watch would and comes later than the cursor |
| ActivityAnswers.RefusedFor | internal/storage/clickhouse.go:747-832 | a request is refused for the first of its times, filter and continue token that is wrong, and for nothing else |
| SqlRendering.ConditionSpelled | internal/storage/clickhouse.go:742-828 | writing a condition's tree out gives the same text as spelling its tokens |
| AuditQueries.BuildQuery | internal/storage/clickhouse.go:489-572 | the audit-log builder returns the clause of its requested conditions in order with their arguments, or the first error |
| AuditQueries.ArgumentsBindInOrder | internal/storage/clickhouse.go:489-572 | for every mix of scope, times, filter and cursor of an audit-log query, the k-th ? is bound to the k-th argument |
| AuditQueries.ClauseAnswers | internal/storage/clickhouse.go:489-572 | with any accepted filter, the text of the clause with its arguments answers on an audit-log row as its conditions do together |
| AuditQueries.ClauseSelects | internal/storage/clickhouse.go:489-572 | with a filter that is typed and keeps its meaning, it selects the row of a logged event exactly if user or scope, time range, filter and cursor hold of the event |
| AuditQueries.FixedTextIs | internal/storage/clickhouse.go:489-572 | its fixed conditions are the strings in the source |
| AuditAnswers.RequestSelects | internal/storage/clickhouse.go:489-572 | the query built for a request, with such a filter, keeps the row of a logged event exactly if the event is of the user or scope, in the time range, passes the filter and comes later than the cursor |
| AuditAnswers.RefusedFor | internal/storage/clickhouse.go:489-572 | a request is refused for the first of its times, filter and continue token that is wrong, and for nothing else |
| AuditPaging.QueryAuditLogs | internal/storage/clickhouse.go:363-428 | the page is the decodable ones of the first rows, up to the limit, with the cursor of the last of them if more decoded |
| AuditPaging.ContinuesExactlyIff | internal/storage/clickhouse.go:421-427 | in a sorted result, a cursor continues with exactly the events after its own if and only if that one was staged in the millisecond of its request and the IDs of that millisecond follow the ORDER BY |
| AuditPaging.PagesTile | internal/storage/clickhouse.go:574-590 | if that holds of every event, the pages make up the result |
| AuditPaging.EventSkipped | internal/storage/clickhouse.go:421-427 | of two events of one millisecond whose IDs do not follow the order, a client that reads one by one never sees the second |
| AuditPaging.SamePageIff | internal/storage/clickhouse.go:421-427 | the second page is the first one again exactly if each of its events is later than what its cursor names |
| AuditPaging.SamePageForEver | internal/storage/clickhouse.go:421-427 | so it is for ever if the last event reached its stage after everything on the page was received |
| SqlPrinting.ConditionParses | internal/storage/clickhouse.go:742-828 | a fixed condition as written reads back as itself |
| Keyset.CursorMeansAfter | internal/storage/clickhouse.go:824-828 | a row passes the cursor exactly when the ORDER BY puts it after the cursor's row |
| Keyset.BeforeTransitive | internal/storage/clickhouse.go:834-837 | the ORDER BY is transitive across hour buckets |
| Keyset.BeforeTotal | internal/storage/clickhouse.go:834-837 | and decides between any two names |
| Keyset.ResultUnique | internal/storage/clickhouse.go:834-837 | so a table has one sorted result |
| Keyset.QueryActivities | internal/storage/clickhouse.go:679-710 | the page is the first rows up to the requested limit, the default or the maximum page size, with a cursor exactly when more came |
| Keyset.CursorRoundTrip | internal/storage/clickhouse.go:878-928 | a cursor decodes to its row exactly for the same parameters within its lifetime |
| Keyset.NothingMissedOrRepeated | internal/storage/clickhouse.go:702-710 | whatever is inserted or deleted between pages, a finished run reads in strictly descending order, nothing twice, and every row present throughout |
| Keyset.FollowIsExact | internal/storage/clickhouse.go:702-710 | after any number of pages, exactly the rows present throughout that are not past the cursor have been read |
| Keyset.FixedTableReadExactly | pkg/cmd/feed.go:286-359 | over a table that does not change the pages end and make up the whole sorted result |
| OffsetPaging.QueryEvents | internal/storage/event_query_clickhouse.go:79-162 | a page of decoded rows, the cursor, or the error |
| OffsetPaging.CursorAcceptedIff | internal/storage/event_query_clickhouse.go:346-380 | a cursor is good for the same query for an hour, and is refused for other parameters first, then for having no issue time, then for its age |
| OffsetPaging.CursorRoundTrip | internal/storage/event_query_clickhouse.go:324-344 | a cursor gives back the offset of the page after the one it was made for, exactly for the same parameters within the hour |
| OffsetPaging.ProcessEvents | internal/reindex/reindexer.go:367-468 | progress and publishes account for what was processed; a completed run has processed exactly the rows up to the first short or damaged window, once each; without faults it completes |
| OffsetPaging.PageAt | internal/storage/event_query_clickhouse.go:141-149 | each page's cursor holds the pages so far times the limit |
| OffsetPaging.OffsetIsProduct | internal/storage/event_query_clickhouse.go:324-344 | the offset after some pages is their number times the limit |
| OffsetPaging.VisitsAllIff | internal/storage/event_query_clickhouse.go:126-149 | every decodable row is visited exactly when none lies beyond the first window that is short or holds an undecodable row |
| OffsetPaging.DecodableAllVisited | internal/storage/event_query_clickhouse.go:126-149 | without undecodable rows the pages tile the result |
| OffsetPaging.DamagedRowHidesRest | internal/storage/event_query_clickhouse.go:126-149 | an undecodable row in the first page that hides a later event |
| OffsetPaging.LapseRestarts | internal/storage/event_query_clickhouse.go:324-344 | a cursor that expires while its query runs sends the next page back to the second one |
| OffsetPaging.Int32Fits | internal/storage/event_query_clickhouse.go:335-336 | the 32-bit offset is right up to its maximum and negative just beyond |
| PolicyCache.RunIsExact | internal/activityprocessor/processor.go:791-938 | after any run of informer events that leaves no stale version, each bucket is exactly the ready policies with its key, each once, and no bucket is empty |
| PolicyCache.UpdateIsExact | internal/activityprocessor/processor.go:832-903 | an update keeps the index exact except when a cached policy becomes a ready one whose kind cannot be resolved |
| PolicyCache.DeleteIsExact | internal/activityprocessor/processor.go:905-938 | a delete keeps the index exact |
| PolicyCache.AddIsExact | internal/activityprocessor/processor.go:791-830 | an add keeps the index exact |
| PolicyCache.SwapRemovedMultiset | internal/activityprocessor/policycache.go:167-180 | swap-removal takes out one occurrence and nothing else |
| PolicyCache.ExactUnique | internal/activityprocessor/policycache.go:68-80 | an exact index determines the cached policies |
| PolicyCache.RemoveByName | internal/activityprocessor/policycache.go:167-196 | the removal loop, dropping a bucket that becomes empty |
| PolicyCache.CachedStandsFor | internal/activityprocessor/policycache.go:230-254 | what the cache holds is exactly the live, ready policies, each with all its rules in order, valid if they compile, under its resolved resource |
| PolicyCache.Cache.CompilePolicy | internal/activityprocessor/policycache.go:230-254 | the loops over the rules compile each in its place |
| PolicyCache.Cache.Add | internal/activityprocessor/policycache.go:90-116 | both indexes gain the policy, compiled rule by rule, under its keys |
| PolicyCache.Cache.Update | internal/activityprocessor/policycache.go:119-150 | both indexes lose the old policy and gain the new |
| PolicyCache.Cache.Remove | internal/activityprocessor/policycache.go:153-164 | both indexes lose the policy |
| PolicyCache.Cache.OnPolicyUpdate | internal/activityprocessor/processor.go:832-903 | the state of both indexes after an update |
| PolicyCache.Cache.HandleAll | internal/activityprocessor/processor.go:791-938 | after a whole run from an empty cache each bucket of both indexes holds exactly the live, ready policies of its key, each with all its rules in order and its resolved resource |
| PolicyCache.Cache.Len | internal/activityprocessor/policycache.go:218-227 | the number of ready policies |
| PolicyCache.Cache.Generation | internal/activityprocessor/policycache.go:565-576 | the live generation of a ready policy, or zero |
| PolicyCache.Cache.Get | internal/activityprocessor/policycache.go:199-205 | exactly the live, ready policies of the group and resource, each once, whole and compiled rule by rule, for groups without the key's separator |
| PolicyCache.Cache.GetByKind | internal/activityprocessor/policycache.go:209-215 | the same for the group and kind |
| PolicyCache.LookupExact | internal/activityprocessor/policycache.go:68-80 | an exact index answers a lookup with exactly the live policies of that group and resource or kind |
| ExporterQueue.RunKeeps | internal/eventexporter/exporter.go:465-531 | in every interleaving the queue is what is left of the accepted jobs, within capacity, and taken jobs are published in order |
| ExporterQueue.Conservation | internal/eventexporter/exporter.go:465-531 | every accepted job is queued, taken or evicted, counted once, and the queue is a suffix of what was accepted |
| ExporterQueue.PublishedInOrder | internal/eventexporter/exporter.go:511-531 | publishes are attempted in the order jobs were accepted |
| ExporterQueue.IncomingKeptIffRoom | internal/eventexporter/exporter.go:462-477 | the incoming job is never the one shed, in any run, exactly when the capacity is at least one |
| ExporterQueue.Exporter.Enqueue | internal/eventexporter/exporter.go:465-477 | try, evict, try again, with the drain loop in between: the job ends up accepted, or shed only without a buffer |
| ExporterQueue.Exporter.TryEnqueue | internal/eventexporter/exporter.go:480-488 | a send that does not block, and when it fails |
| ExporterQueue.Exporter.DropOldest | internal/eventexporter/exporter.go:491-498 | the oldest queued job goes, if there is one |
| Subjects.PublishIsolated | internal/types/subject.go:24-35 | a published subject matches a cluster's grant exactly when it is that cluster's own |
| Subjects.UnfederatedNotGranted | internal/types/subject.go:24-35 | events published without a cluster match no cluster's grant |
| Subjects.InboxesDisjoint | internal/types/subject.go:37-51 | no subject lies in two clusters' inbox grants, nor in a cluster's and the processor's |
| Subjects.ValidNameIsLabel | internal/types/subject.go:8-18 | a valid cluster name is a label: what the pattern matches, and nothing else |
| AccountUsers.OwnEventsOnly | internal/types/subject.go:31-35 | under a prefix without wildcards, a cluster's grant is exactly the subjects of its own events |
| AccountUsers.UsersIsolated | internal/nkeygenerator/generator.go:341-366 | the users written for valid clusters: each leaf user has its key and no password, connects as a leaf node only, may publish its own cluster's events and no other subject of an event, and may receive its own inbox and nothing that another leaf user or the processor can |
| NkeyGenerator.ClusterRecoveredIff | internal/nkeygenerator/generator.go:398-428 | the cluster is recovered from a user entry exactly when the subject prefix has not changed |
| NkeyGenerator.PrefixChangeDisarmsGuard | internal/nkeygenerator/generator.go:373-428 | after a prefix change a cluster whose Secret exists is dropped without refusal |
| NkeyGenerator.GuardPassesIff | internal/nkeygenerator/generator.go:368-396 | the guard passes exactly when every leaf key stays or has lost its Secret |
| NkeyGenerator.UnracedWriteKeeps | internal/nkeygenerator/generator.go:465-526 | a write with nobody between its two reads keeps every leaf user of the ConfigMap it replaces, unless its Secret was absent |
| NkeyGenerator.GuardExact | internal/nkeygenerator/generator.go:465-526 | the guard protects the replaced ConfigMap exactly when each of its leaf users was there, for the same Secret, at the first read |
| NkeyGenerator.Generator.EnsureKey | internal/nkeygenerator/generator.go:237-296 | the key returned was stored in the cluster's Secret, a stored key is never replaced, a lost race is read back, and it fails only for a failed request or a Secret without a key |
| NkeyGenerator.Generator.FindDropped | internal/nkeygenerator/generator.go:373-396 | an empty answer means no previously authorised key is lost, and every cluster in the answer is that of such a key |
| NkeyGenerator.Generator.WriteConfigMap | internal/nkeygenerator/generator.go:470-526 | the outcome is that of the guarded write for what was seen, whether the request or its answer was lost; a refused or failed guard writes nothing, a refusal names clusters that would lose their key, a conflict means somebody wrote in between, and any other error is that of a failed request |
| NkeyGenerator.Generator.Provision | internal/nkeygenerator/generator.go:117-128 | the loop over the listed clusters: the static users and one isolated user per valid name, whose key is in its Secret by then |
| NkeyGenerator.Generator.Sync | internal/nkeygenerator/generator.go:108-140 | whatever a run puts in place is the static users and one user per valid listed cluster, with the key of that cluster's Secret, isolated from each other, and keeps what was authorised; a failed run has written that or nothing, and a run fails only for a failed request, a Secret without a key, a cluster that would lose its key or a conflict |
| FieldSelector.ParseFieldSelector | internal/storage/events_fields.go:74-126 | the parsing loop returns the terms in order or the first error |
| FieldSelector.SelectorRoundTrip | internal/storage/events_fields.go:74-126 | printing terms and parsing them gives back columns, operators and values exactly when every value is trimmed, has no comma and, after =, brings in no other operator |
| FieldSelector.TermRoundTrip | internal/storage/events_fields.go:86-107 | the same for one term |
| FieldSelector.AliasesAgree | internal/storage/events_fields.go:46-68 | an alias resolves to the column of its full path |
| FieldSelector.BuildFieldSelector | pkg/cmd/events.go:218-240 | the selector is the set flags' terms, then the explicit selector |
| FieldSelector.ValidatedFlagsArrive | pkg/cmd/events.go:156-190 | flags that pass validation arrive as meant exactly when they are trimmed |
| FieldSelector.ExplicitSelectorFollows | pkg/cmd/events.go:235-239 | an explicit selector is read after the flags as if it stood alone |
| FieldSelector.EscapableIsPrintable | pkg/cmd/common/escape.go:27-33 | a value that passes the escape check is printable when trimmed |
| FieldSelector.TermsToSQL | internal/storage/events_fields.go:147-169 | one condition and one argument per term, in order |
| EventQueries.BuildQuery | internal/storage/event_query_clickhouse.go:164-238 | the event-query builder returns the conditions of scope, namespace, times and selector terms in order with their arguments, or the first error |
| EventQueries.ClauseSelects | internal/storage/event_query_clickhouse.go:164-238 | a row is selected by the text and its arguments exactly when it passes every condition |
| EventQueries.QuerySelects | internal/storage/event_query_clickhouse.go:164-238 | so a request selects exactly the rows in its scope, namespace and time range that match every term of its selector |
| EventAnswers.SelectorReads | internal/storage/events_fields.go:11-68 | a selector is supported exactly if it names a field of the event, and its column is where that field is stored |
| EventAnswers.RequestSelects | internal/storage/event_query_clickhouse.go:164-284 | a request selects the row of an event exactly if the event is of its scope type and name (an organization's, project's or user's request), namespace and time range and every term of the selector holds of its field |
| EventAnswers.RefusedFor | internal/storage/event_query_clickhouse.go:164-238 | a request is refused for the first of its times and selector that is wrong, and for nothing else |

## Left out

- RetryProtocol.NoDeadLetterLost: assumes permanent deduplication windows; with an expiring window a late redelivery could store a second copy.
- RetryController.Controller.ScanForPolicy: the timing argument is for a scan during which nobody else acts and metadata updates succeed; with others at work, `RetryController.Controller.Sound` holds and no bound is stated.
- RetryController.Controller.RetryForPolicy: the same conditions as `RetryController.Controller.ScanForPolicy`.
- RetryController.Controller.PeriodicRetry: the bound holds while policies do not change, metadata updates succeed and nobody else acts, and for schedules whose waits leave a gap, as the defaults do.
- Ingest.Processor.ProcessMessage: audit events only; for Kubernetes events live and reindexed activities differ, because reindexing drops annotations.
- Ingest.ReindexMatchesIngest: states equality up to the policy-name label, which reindexing sets and ingest does not, and up to the creation timestamp, which falls back to the current time for an event without one.
- FilterMeaning.KeepsValue: requires the filter to be typed whatever the row holds; `FilterKinds.AgreeIffTyped` covers the others.
- FilterKinds.AgreeIffTyped: leaves out filters that compare a test for a field, of which `FilterKinds.ComparedTestDiffers` is one, and filters that mix a truth value with a number, which CEL's checker refuses except among the elements of a list; whether such a filter agrees depends on the rows and on what short-circuits.
- FilterAgreement.AgreeEverywhereIff: with && or || the second half of its condition ranges over activities, because whether a watch ever answers then depends on which texts the other operands allow.
- LostGrouping.NestedAgreesIff: one equality inside another, without numbers; other filters whose text loses its meaning are covered by `FilterReading.ReadsAs`, which says what they are read as.
- Activities.WatchAgreesWithQuery: RFC 3339 parsing of timestamp literals is a parameter shared by both sides.
- CelSyntax.MappedFieldValidates: holds in one direction; the validator also lets through some fields that the mapper then refuses.
- CelConverter.ConvertibleValidates: for filters without a method called timestamp, which CEL's checker does not know.
- WhereClause.ClauseSelects: full-text search is case-insensitive containment on ASCII letters only.
- AuditQueries.ClauseSelects: for events whose ID and status code their columns keep (`AuditLogs.LogRowAgreesIff`); the column of the ID is a UUID, of which string functions, the database's own order and text that is no UUID are not modelled.
- AuditPaging.ContinuesExactlyIff: the ORDER BY for user filters is chosen by looking at the filter's text, here a parameter; times are whole milliseconds, the precision of the column.
- EventQueries.BuildQuery: ends before the ORDER BY; its offset is in `OffsetPaging`.
- Keyset.FixedTableReadExactly: time bounds are absolute, cursors are unexpired along the run and names are not empty; decoding errors are in `Keyset.CursorRoundTrip`.
- OffsetPaging.ProcessEvents: evaluation is a function per event, a publish succeeds or fails as a whole, and the width of the batch counter is not modelled.
- OffsetPaging.Int32Fits: the 32-bit offset is modelled exactly at its limit; the loops themselves count without bound.
- PolicyCache.Cache.Get: the source returns the bucket's own slice; a reader that holds it while a swap-removal runs, and the locks, are not modelled. For a group that holds the key's separator, which API groups cannot, nothing is said.
- PolicyCache.Cache.CompilePolicy: a compiled rule is its texts and whether it compiled, not its CEL program; the error text of one that did not is left out.
- ExporterQueue.RunKeeps: one producer, as the informer callback runs; ack outcomes beyond the in-flight count and the message ID of a publish are not modelled.
- NkeyGenerator.Generator.WriteConfigMap: a write that races another between its two reads is not guarded against what it replaces; `NkeyGenerator.GuardExact` says when it is.
- FieldSelector.TermsToSQL: white space is ASCII.
- The error message, tenant and rule index of a dead letter: carried unchanged by every step.
- NATS, ClickHouse, the Kubernetes API, cel-go, and the internals of JSON, base64 and SHA-256.
- CEL evaluation of policies and summary templates: an evaluation is an error, no match, or a match.
- Paging of native Kubernetes events through the List API, which keys on insertion time alone.
- The ReindexJob controller: its phase machine and concurrency limit.
- Watch subject patterns against published subjects, which treat dots in an API group differently.
- The contents of pushed secrets, the YAML text of the user list, and access rules of the generator.
- Metrics, logging, health checks, TLS, flag parsing, the MCP server, printing of tables, and the user interface: plumbing.
