# Nanexus event path: a verified model

Nanexus Event Intelligence takes in Frigate events, stores them as canonical observations, moves
them through a transactional outbox and a Redis stream to three consumer groups, decides and
notifies, hands review items to an external processor, and exports what it stored for replay. This
project models that logic in Dafny and proves what its design promises.

## The model

**The event path** (`PipelineState`) is one state machine: the database rows, the stream with its
groups, any number of publishers, any number of workers. A move is one atomic step of one process: a
database transaction, a Redis command, a webhook call. A run is any sequence of moves; a move its
process cannot make leaves the state alone, and an abort at any point is a crash. An append may be
refused, or be made and still be answered with an error; a transaction may roll back, or commit and
still raise; the webhook may accept, refuse for now, refuse for good, or raise anything else. Which
pending entries are old enough to be claimed is left open. The history record of a state (calls,
returns, dead letters by group, webhook calls) is bookkeeping that no process reads.

Proved over every run: no committed row is lost (`NoLoss`); at-least-once delivery becomes
exactly-once effects (`ClosedLoop`, `Notifications`); the stream without repeats is a prefix of the
outbox (`OutboxOrder`); every backlog stays bounded (`Backpressure`); every status has its answer from
the webhook and every effect its call (`Answers`, `Causes`); without crashes the handler
calls are bounded although the shadow handler feeds the same outbox (`TotalWork`). `TwoNotifiers`
proves that one notification worker is exactly what the guarantees on notifications need.

`PipelineProcess`, `WorkerProcess`, `Handlers` and `Runtime` are the same processes as the program
writes them, as classes over a database and a Redis server that they update. Each call is proved to
make exactly the moves it returns as its trace, so what holds of all runs holds of them. The runtime
loop is proved to drain: after more passes than the bound on its work nothing is left.

**Ingest** (`SourceKeys`, `Normalizer`, `IngestStore`, `IngestProcess`, `LiveWorker`) follows one
message through raw and canonical deduplication, quarantine, lifecycle flags, mapping, evidence,
review item, processor job, outbox and checkpoint, and back out through every error path. A whole
payload stands for its SHA-256, but the twelve digits that go into a revision are kept as a field of
their own, so that their accidents are part of the model. `IngestTables`, `IngestKeys`,
`Lifecycles`, `ReviewItems`, `Restart` and `IngestMeaning` hold the theorems; the last one follows what a
message says into observation, review item and alert fact. `IngestFeed` joins ingest to the event
path: what one persists is what the other starts from, so every valid message is followed from its
delivery to its notification.

**Processor jobs** (`ProcessorJobs`, `ProcessorApi`), **decision revisions and feedback**
(`DecisionHistory`, `FeedbackChain`) are state machines over interleaved database transactions with
row locks, skipped locks and unique constraints.

**Replay** (`Alerts`, `ReplayBundle`, `ReplayFiles`, `ReplayMeaning`, `ReplayEngine`, `ReplayHistory`) covers the rule
evaluator, the export query, newline framing byte by byte, the loader with all its errors and limits,
the engine with its clock and sleeps, and the comparison of a replay with the stored decisions. The
JSON text of a record is a parameter, asked only to be read back as it was written and to hold no
line ends. Sleep lengths are reals.

Row ids are indices in order of commit; where the program orders by `(created_at, id)` or by a
time-ordered id, the model orders by index. Times are integers in microseconds.

## What turned out to hold only on a condition

- Evidence references leave out the lifecycle. Two revisions of one entity whose time and twelve
  digest digits agree clash on `uq_evidence_source_ref`. `IngestKeys.RefusedIffClash` gives the exact
  condition, `IngestKeys.ClashExample` a run, and `IngestKeys.DistinctDigestsSuffice` the assumption
  under which it cannot happen. `IngestKeys.KeysAreValidMessages` says which messages are stored either way:
  those whose key and reference no message stored before them has.
- A terminal notification status is final in every run exactly with at most one notification worker, or
  where nothing can be announced at all: no publisher, no shadow worker, or a policy that never notifies
  (`TwoNotifiers.FinalIffOneNotifier`). With two, wherever they stand, it can be overwritten
  (`TwoNotifiers.TerminalIsOverwritten`).
- Feedback is unbranched exactly if no post commits on an observation while another one stands between
  its look at the latest row and its own commit (`FeedbackChain.UnbranchedIffNoneOvertaken`). Posts that
  come one after the other are never overtaken (`FeedbackChain.SerialIsNotOvertaken`); overlapping ones
  can be (`FeedbackChain.OverlapBranches`).
- A shadow key joins policy id and version with a colon. The row of each policy is there exactly if its
  decision is, in all runs, exactly if the joined names of the policies that may run differ
  (`DecisionHistory.ShadowRowIffDecision`); ids without colons are enough
  (`DecisionHistory.ColonFreeNamesDiffer`). Of two policies with one joined name the second can never
  decide where the first has (`DecisionHistory.SharedNameHidesDecision`).
- Loading an export succeeds exactly within the loader's byte limits, which the exporter does not
  look at (`ReplayBundle.LoadOfExport`).
- Replay repeats the live winning rule exactly if that rule does not look at stationarity
  (`Alerts.ReplayKeepsWinnerIff`); under the community policy it repeats the live outcome exactly
  where that was not to suppress (`ReplayHistory.CommunityReplay`).
- A later receipt shows the first receipt's status exactly if the submission loaded the job's row after
  the decision, otherwise the old one; its claims and evidence are always the first receipt's
  (`ProcessorJobs.LaterSubmissionsGetTheFirstReceipt`).
- A review item follows the order of ingest, not of occurrence: a late update after the end shows as
  active again (`ReviewItems.ReviewItemsSummarize`).

## Model

| member | source | states |
|---|---|---|
| `ClosedLoop.ClosedLoop` | backend/src/nanexus_event_intelligence/pipeline/worker.py:113-141 | in every run with crashes and one notification worker: with all rows published and no dead letters, each drained group has had its effects exactly once (processed; one decision with the policy's outcome; for send and escalate one action of the right stage and one notification, both succeeded or both permanently failed), and no other decision has any |
| `ClosedLoop.TerminalIsFinal` | backend/src/nanexus_event_intelligence/notifications/handler.py:48-52 | an action that is terminal at any point of a run keeps its row and gets no further webhook call in any continuation |
| `ClosedLoop.LostAreCrashes` | backend/src/nanexus_event_intelligence/notifications/handler.py:91-96 | committed starts whose webhook call never happened are at most the crashes of the run |
| `ClosedLoop.AttemptsCountCalls` | backend/src/nanexus_event_intelligence/notifications/handler.py:43-128 | attempts are the calls made plus the calls crashes swallowed plus one while a worker stands between start and call; all calls of an action carry the message stored with it |
| `ClosedLoop.UnfinishedIsDeadLetter` | backend/src/nanexus_event_intelligence/pipeline/worker.py:127-140 | an action that is not terminal and whose envelopes neither wait nor are pending has one of them in the dead letter stream |
| `TwoNotifiers.TerminalIsOverwritten` | backend/src/nanexus_event_intelligence/notifications/handler.py:116-128 | in any deployment with two notification workers that can announce something, a run in which a succeeded action ends as a permanent failure |
| `TwoNotifiers.FinalIffOneNotifier` | backend/src/nanexus_event_intelligence/notifications/handler.py:48-128 | terminal statuses are final in every run exactly with at most one notification worker, or where nothing can be announced |
| `Notifications.RunReady` | backend/src/nanexus_event_intelligence/notifications/handler.py:49-93 | every run keeps: actions and notifications pair up, each action has its decision's message, terminal statuses agree, attempts are accounted for |
| `Answers.AnswerIsWritten` | backend/src/nanexus_event_intelligence/notifications/handler.py:95-128 | at any point of any run the second transaction writes succeeded, retryable_failure or permanent_failure as the webhook accepted, refused for now or for good, to that action and notification alone, and the call returns normally exactly if it commits and need not be tried again |
| `Answers.StatusHasItsAnswer` | backend/src/nanexus_event_intelligence/notifications/handler.py:98-128 | in every run a succeeded action has an accepted call, a permanently failed one a permanent refusal; an action only ever refused for now is not terminal |
| `Answers.MessagesDescribe` | backend/src/nanexus_event_intelligence/notifications/handler.py:53-87 | in every run each message sent or stored carries outcome, reasons, stage and fact of a decision to send or escalate |
| `Causes.NothingUncaused` | backend/src/nanexus_event_intelligence/pipeline/worker.py:127-141 | in every run nothing is processed, decided or notified about without a handler call for its own announcement, and only calls return or are buried |
| `Steps.CheckMeaning` | backend/src/nanexus_event_intelligence/pipeline/outbox.py:47-52 | a publisher goes on exactly while every group's pending plus lag is below the limit |
| `Steps.SelectMeaning` | backend/src/nanexus_event_intelligence/pipeline/outbox.py:56-66 | a batch is the first waiting rows no other open batch has, in order, as many as fit |
| `Steps.CommitMeaning` | backend/src/nanexus_event_intelligence/pipeline/outbox.py:67-77 | a commit publishes exactly the rows sent, counts one attempt for those and for the one that failed, and notes or clears errors |
| `Steps.ReadMeaning` | backend/src/nanexus_event_intelligence/pipeline/worker.py:117-124 | a read takes the next unseen entries, all or as many as fit, each delivered once |
| `Steps.CountMeaning` | backend/src/nanexus_event_intelligence/pipeline/worker.py:131-138 | after a failed call a message stays pending, unless it was delivered as often as allowed |
| `Steps.BuriedAtLimit` | backend/src/nanexus_event_intelligence/pipeline/worker.py:166-183 | in every run a dead letter tells of at least as many deliveries as are allowed |
| `NoLoss.NextKeeps` | backend/src/nanexus_event_intelligence/pipeline/worker.py:113-183 | every single move keeps: entries mirror rows, published rows are streamed, delivered entries are pending, returned or dead, queues hold delivered entries |
| `NoLoss.NoRowIsLost` | backend/src/nanexus_event_intelligence/pipeline/outbox.py:54-77 | in every reachable state each committed row is unpublished, or streamed with each of its entries undelivered, pending, returned or dead for every group |
| `Records.NextLinked` | backend/src/nanexus_event_intelligence/alerts/handler.py:39-121 | every move keeps one canonical row per observation, at most one decision per observation with the policy's outcome, one shadow row per decision, all keys distinct; facts and decisions never change |
| `Backpressure.BacklogIsBounded` | backend/src/nanexus_event_intelligence/pipeline/outbox.py:47-91 | with groups created first, any number of publishers and any crashes: pending plus lag is at most the limit minus one plus publishers times batch size |
| `OutboxOrder.StreamRefinesOutbox` | backend/src/nanexus_event_intelligence/pipeline/outbox.py:58-76 | with one publisher the stream's keys in order of first appearance are a prefix of the outbox that covers every published row, in spite of crashes, refused and ambiguous appends |
| `TotalWork.HandlerCallsAreBounded` | backend/src/nanexus_event_intelligence/pipeline/worker.py:127-138 | without crashes and Redis errors at most 2 * observations * groups * max deliveries handler calls are made and 2 * observations entries appended |
| `TotalWork.NextOnce` | backend/src/nanexus_event_intelligence/pipeline/outbox.py:56-76 | without crashes every move keeps each row in at most one entry, with concurrent publishers |
| `TotalWork.NextCalls` | backend/src/nanexus_event_intelligence/pipeline/worker.py:156-164 | every calm move keeps deliveries of a pending entry equal to its handler calls, plus the one still due, and below the limit |
| `PipelineProcess.OutboxPublisher.InflightCount` | backend/src/nanexus_event_intelligence/pipeline/outbox.py:79-91 | the loop over the groups yields the largest pending plus lag of any group, or nothing |
| `PipelineProcess.OutboxPublisher.AppendRows` | backend/src/nanexus_event_intelligence/pipeline/outbox.py:66-76 | the loop appends the batch in order up to the first error, marks exactly the appended rows published and the failed one failed, and makes exactly the listed moves |
| `PipelineProcess.OutboxPublisher.PublishBatch` | backend/src/nanexus_event_intelligence/pipeline/outbox.py:47-77 | a batch is the moves check, select, appends, commit; when the commit fails it raises, the marks are lost and the entries stay; backpressured only at the limit; on a healthy Redis nothing fails and an empty batch changes nothing |
| `WorkerProcess.RedisStreamWorker.EnsureGroup` | backend/src/nanexus_event_intelligence/pipeline/worker.py:101-111 | the group exists afterwards, created at 0-0 unless it was there, and is asked for at most once; an error other than an existing group raises, and the next call tries again |
| `WorkerProcess.RedisStreamWorker.RecoverPending` | backend/src/nanexus_event_intelligence/pipeline/worker.py:143-154 | claims pending entries only, in order, at most a batch, one more delivery each |
| `WorkerProcess.RedisStreamWorker.HandleMessage` | backend/src/nanexus_event_intelligence/pipeline/worker.py:128-140 | one message: one handler call, then acknowledged, kept, or buried exactly at the delivery limit |
| `WorkerProcess.RedisStreamWorker.RunOnce` | backend/src/nanexus_event_intelligence/pipeline/worker.py:113-141 | a round is a poll and the turns of its messages, counts each message once, and does nothing exactly when the group is drained |
| `Handlers.ObservationProcessedHandler.Call` | backend/src/nanexus_event_intelligence/pipeline/handlers.py:26-47 | marks exactly the observation named as processed, or raises if it is missing |
| `Handlers.ShadowDecisionHandler.Call` | backend/src/nanexus_event_intelligence/alerts/handler.py:30-121 | an undecided observation gets one decision, the policy's on its fact, and the row announcing it, in one transaction; a decided one nothing |
| `Handlers.CommunityNotificationHandler.Call` | backend/src/nanexus_event_intelligence/notifications/handler.py:43-114 | skips what is not to notify, raises for unknown subjects, leaves finished actions alone, otherwise starts the delivery, calls the webhook and writes its answer, each transaction failing as it may |
| `Handlers.CommunityNotificationHandler.Finish` | backend/src/nanexus_event_intelligence/notifications/handler.py:102-128 | the answer's status is written to the action and its notification and nothing else |
| `WorkerProcess.HandlerCall` | backend/src/nanexus_event_intelligence/pipeline/worker.py:129-131 | a handler call with any transaction and webhook answers is exactly its moves of the machine |
| `Runtime.PipelineRuntime.Round` | backend/src/nanexus_event_intelligence/pipeline/runtime.py:81-86 | a pass of the loop does some of the bounded work, or changes nothing and finds nothing left to do |
| `Runtime.PipelineRuntime.Run` | backend/src/nanexus_event_intelligence/pipeline/runtime.py:76-100 | drain: after more passes than the bound on work all rows are published and all groups drained, handlers failing as they like |
| `Alerts.EvaluateRules` | backend/src/nanexus_event_intelligence/alerts/evaluator.py:11-32 | the loop with its early return computes the evaluation, trace included |
| `Alerts.WinnerIsLeastMatch` | backend/src/nanexus_event_intelligence/alerts/evaluator.py:11-68 | the winner is the least rule, by priority and id, that the fact meets: something of each of its four lists unless empty, nothing it excludes, its demand on stationarity; outcome, id, reasons and version are the evaluation's, and without a winner nothing happens |
| `Alerts.MatchMeaning` | backend/src/nanexus_event_intelligence/alerts/evaluator.py:35-68 | a rule matches exactly if the fact meets it, and each flag of its trace says so of one criterion, by membership |
| `Alerts.TraceTells` | backend/src/nanexus_event_intelligence/alerts/evaluator.py:12-32 | the trace lists the sorted rules up to and including the first one met |
| `Ordering.StrLeMeaning` | backend/src/nanexus_event_intelligence/alerts/evaluator.py:13 | texts compare by the first character in which they differ |
| `Alerts.ReplayIsReducedPolicy` | backend/src/nanexus_event_intelligence/alerts/replay.py:19-33 | evaluating without objects is evaluating the policy without its stationarity rules |
| `Alerts.ReplayKeepsWinnerIff` | backend/src/nanexus_event_intelligence/alerts/evaluator.py:63-68 | the live winner is found again exactly if it does not look at stationarity |
| `SourceKeys.DedupeKeyInjective` | backend/src/nanexus_event_intelligence/adapters/frigate/normalizer.py:134-137 | the colon-joined key determines source, namespace, entity, lifecycle and revision even when ids contain colons |
| `SourceKeys.SnapshotRefInjective` | backend/src/nanexus_event_intelligence/adapters/frigate/normalizer.py:138-158 | evidence references are equal exactly for equal namespace, entity and revision |
| `SourceKeys.RevisionHasForm` | backend/src/nanexus_event_intelligence/adapters/frigate/normalizer.py:136 | the text of a time holds no colon, so a revision has exactly the one before its digest |
| `SourceKeys.SecondsRead` | backend/src/nanexus_event_intelligence/adapters/frigate/normalizer.py:135 | the text of a time is sign, whole seconds, point and six digits, and reads back as the time |
| `SourceKeys.SnapshotRefText` | backend/src/nanexus_event_intelligence/adapters/frigate/normalizer.py:139-158 | the two forms of evidence references |
| `Normalizer.NormalizeWellFormed` | backend/src/nanexus_event_intelligence/adapters/frigate/normalizer.py:46-184 | every event has its namespace, the key made of its own fields, at most one snapshot with the matching reference, and a lifecycle out of started, updated, ended |
| `Normalizer.EventMeaning` | backend/src/nanexus_event_intelligence/adapters/frigate/normalizer.py:59-137 | topic decides the kind, message type the lifecycle, snapshots come with reviews and objects that have one, and the revision is the text of the event's time |
| `Normalizer.NormalizedTells` | backend/src/nanexus_event_intelligence/adapters/frigate/normalizer.py:46-184 | every event tells its message: labels, zones, times, camera, links, objects, severity, revision, evidence and key are those of the payload, by membership and for each kind; a message has an event exactly if its payload is readable and its times fit |
| `Normalizer.ContentDecides` | backend/src/nanexus_event_intelligence/adapters/frigate/normalizer.py:46-53 | validity and event depend on topic and payload only, not on when the message was seen or on the camera table |
| `IngestTables.RunConsistent` | backend/src/nanexus_event_intelligence/persistence/models.py:224-235 | every run keeps raw, observation, mapping, evidence and outbox keys unique and the tables consistent with each other |
| `IngestMeaning.RowsTellMessages` | backend/src/nanexus_event_intelligence/adapters/frigate/pipeline.py:124-199 | after any run each raw row is a delivered message, quarantined exactly if unreadable; each observation tells the message of its raw row; object rows are the objects seen |
| `IngestMeaning.ResultsAreRight` | backend/src/nanexus_event_intelligence/adapters/frigate/pipeline.py:72-124 | in any run each result is the one that message and store call for: repetition, availability, unreadable, bad time, known key, odd confidence, taken reference, persisted, in this order |
| `IngestMeaning.CheckpointMoves` | backend/src/nanexus_event_intelligence/persistence/repositories.py:209-219 | unless it raises a message leaves its cursor as its stream's checkpoint, all others staying where they are |
| `IngestMeaning.FactsTellMessages` | backend/src/nanexus_event_intelligence/alerts/handler.py:62-78 | the fact the shadow handler evaluates has the kind, lifecycle, labels, zones and flags of a delivered message |
| `IngestMeaning.ItemsTellMessages` | backend/src/nanexus_event_intelligence/adapters/frigate/pipeline.py:200-233 | each review item shows status, labels, zones and revision of the message behind its entity's last observation |
| `IngestKeys.KeysAreValidMessages` | backend/src/nanexus_event_intelligence/adapters/frigate/pipeline.py:72-124 | the observation keys are exactly those of the valid messages whose key and reference none stored before has, without a clash those of all valid messages; each is there once, with one canonical outbox key |
| `IngestKeys.OrderAndRepeatsDoNotMatter` | backend/src/nanexus_event_intelligence/adapters/frigate/pipeline.py:117-122 | runs over the same messages, in any order and with any repeats, store the same keys |
| `IngestKeys.RawsCountResults` | backend/src/nanexus_event_intelligence/adapters/frigate/pipeline.py:96-124 | raw rows are as many as persisted, quarantined and ignored results |
| `IngestKeys.RefusedIffClash` | backend/src/nanexus_event_intelligence/persistence/models.py:234 | a run is refused an evidence reference exactly if two first-of-their-key messages clash; no other uniqueness constraint is ever hit |
| `IngestKeys.PersistedIffStored` | backend/src/nanexus_event_intelligence/adapters/frigate/pipeline.py:117-124 | which messages are persisted is decided by the valid messages before them alone |
| `IngestKeys.DistinctDigestsSuffice` | backend/src/nanexus_event_intelligence/adapters/frigate/normalizer.py:134-136 | when the twelve digits tell payloads apart there is no clash |
| `IngestKeys.ClashExample` | backend/src/nanexus_event_intelligence/adapters/frigate/normalizer.py:148-158 | two messages that do clash |
| `IngestProcess.FrigateIngestPipeline.Classify` | backend/src/nanexus_event_intelligence/adapters/frigate/pipeline.py:125-144 | the flags say of the entity's history whether it holds something later, something terminal, or a start; a classified history stays classified with the new observation |
| `IngestProcess.FrigateIngestPipeline.UpdateReview` | backend/src/nanexus_event_intelligence/adapters/frigate/pipeline.py:200-258 | creates or updates the review item, links the observation, and creates the job of an ended one |
| `IngestProcess.FrigateIngestPipeline.IngestMessage` | backend/src/nanexus_event_intelligence/adapters/frigate/pipeline.py:72-274 | one message, on every path, does to the session what the specification of ingest says |
| `IngestProcess.FrigateIngestPipeline.IngestFixtureBundle` | backend/src/nanexus_event_intelligence/adapters/frigate/pipeline.py:281-299 | ingests exactly the messages from the checkpoint up to the limit, or raises where one of them raises |
| `Restart.RestartIsTransparent` | backend/src/nanexus_event_intelligence/adapters/frigate/pipeline.py:290-299 | however a bundle is cut into runs and rolled back, store and checkpoint are those of one run over the messages done so far |
| `Restart.LastAttemptFinishes` | backend/src/nanexus_event_intelligence/persistence/repositories.py:209-219 | one more run without limit ends exactly where the uninterrupted run ends, or raises exactly if it does |
| `Restart.AttemptAdvances` | backend/src/nanexus_event_intelligence/adapters/frigate/pipeline.py:290-299 | a committed run does as many messages as it asks for, or all that are left |
| `BundleRuns.RangeIsDeliveries` | backend/src/nanexus_event_intelligence/adapters/frigate/pipeline.py:296-299 | a run over a bundle is its messages delivered one after the other with their indices as cursors, and fails exactly if one of them raises |
| `Lifecycles.FlagsClassify` | backend/src/nanexus_event_intelligence/adapters/frigate/pipeline.py:125-144 | in every store each flag holds exactly if the history before it says so |
| `Lifecycles.HistoriesAreClassified` | backend/src/nanexus_event_intelligence/adapters/frigate/pipeline.py:128-141 | unflagged observations are sorted by time; those not after a terminal one have at most one end, at the end; histories stay whole once started |
| `ReviewItems.ReviewItemsSummarize` | backend/src/nanexus_event_intelligence/adapters/frigate/pipeline.py:200-233 | a review item shows the last status, labels, zones and revision, the last camera, severity and end that were given, and the first start, of its entity's history |
| `ReviewItems.JobsFollowEndings` | backend/src/nanexus_event_intelligence/processor/service.py:59-127 | each ended review observation has exactly one job, for its revision and exactly its snapshots; there are no other jobs |
| `ReviewItems.Latest` | backend/src/nanexus_event_intelligence/api/routes/review_items.py:30-36 | the chosen observation greatest by time and then id |
| `ReviewItems.LookupsAgree` | backend/src/nanexus_event_intelligence/api/routes/review_items.py:22-61 | the link table and the mapping lead to the same latest observation |
| `LiveWorker.FrigateLiveIngestWorker.IngestTransaction` | backend/src/nanexus_event_intelligence/adapters/frigate/live_worker.py:146-172 | the transaction either commits a whole ingest that returned or leaves the store as it was |
| `LiveWorker.FrigateLiveIngestWorker.OnMessage` | backend/src/nanexus_event_intelligence/adapters/frigate/live_worker.py:107-123 | an acknowledged message is committed; without an acknowledgement the connection is dropped |
| `LiveWorker.AcknowledgedIsSettled` | backend/src/nanexus_event_intelligence/adapters/frigate/live_worker.py:112-123 | after any run of deliveries, failures and redeliveries every acknowledged message is settled for good |
| `LiveWorker.AcknowledgedIsObserved` | backend/src/nanexus_event_intelligence/adapters/frigate/live_worker.py:169-172 | the observation of every acknowledged valid message is committed |
| `LiveWorker.SettledIsDuplicate` | backend/src/nanexus_event_intelligence/adapters/frigate/pipeline.py:75-80 | redelivering a settled message changes nothing but the checkpoint |
| `LiveWorker.DecodedMeaning` | backend/src/nanexus_event_intelligence/adapters/frigate/live_worker.py:146-168 | what is ingested has topic, time of arrival and payload, or the hash of a payload that is no object |
| `IngestFeed.OneRowPerPersisted` | backend/src/nanexus_event_intelligence/adapters/frigate/pipeline.py:259-274 | when what ingest persists is what the event path starts from, both have the same observations with the same facts, each with exactly one canonical outbox row |
| `IngestFeed.EveryMessageIsSettled` | backend/src/nanexus_event_intelligence/alerts/handler.py:39-121 | when the event path has come to rest without dead letters, every valid message has an observation that is processed, decided once by the policy on the stored facts, and notified once if so decided |
| `ProcessorJobs.NextJob` | backend/src/nanexus_event_intelligence/api/routes/processor.py:114-123 | the claimable unlocked job that has been available longest, the oldest row among equals |
| `ProcessorJobs.HandedOutAtMostOnce` | backend/src/nanexus_event_intelligence/api/routes/processor.py:108-130 | under any interleaving of pollers a job is handed out at most once, and exactly once when it is no longer pending |
| `ProcessorJobs.TerminalIffInvocation` | backend/src/nanexus_event_intelligence/persistence/models.py:284 | a job is terminal exactly if it has an invocation, it has at most one, and their statuses are equal |
| `ProcessorJobs.EvidenceIsGranted` | backend/src/nanexus_event_intelligence/api/routes/processor.py:247-308 | claims cite granted evidence, an invocation cites exactly what its claims cite, and it kept the job's privacy policy |
| `ProcessorJobs.LaterSubmissionsGetTheFirstReceipt` | backend/src/nanexus_event_intelligence/api/routes/processor.py:225-245 | once decided, every matching submission changes nothing and is answered with the first receipt's claims and evidence, and with its status exactly if it loaded the decided row |
| `ProcessorJobs.LosersWriteNothing` | backend/src/nanexus_event_intelligence/api/routes/processor.py:260-278 | a submitter that had passed its checks when another one got the job decided never gets to insert, and in every continuation invocation, claims, evidence, status and first receipt of the job stay as the winner left them |
| `ProcessorApi.SubmissionIsFourMoves` | backend/src/nanexus_event_intelligence/api/routes/processor.py:218-331 | an undisturbed submission is its four steps of the machine, with the same answer |
| `ProcessorApi.SubmissionMeaning` | backend/src/nanexus_event_intelligence/api/routes/processor.py:218-331 | a submission is accepted exactly if it matches an undecided running job, cites only granted evidence and none twice in a claim, takes the job's route and no network but allowed; each failing condition has its answer, in order; an accepted one leaves exactly its rows, any other none |
| `ProcessorApi.HandedOutCanComplete` | backend/src/nanexus_event_intelligence/api/routes/processor.py:247-331 | in every run each job handed out and not decided has a result that keeps the contract, cites all its grants, is accepted and completes it |
| `ProcessorApi.Processor.NextJob` | backend/src/nanexus_event_intelligence/api/routes/processor.py:109-130 | claims the due job that no one holds and that was due longest, the oldest among equals: running, one more attempt, all others unchanged; none only if none is due |
| `ProcessorApi.Processor.SubmitResult` | backend/src/nanexus_event_intelligence/api/routes/processor.py:219-331 | accepts exactly the acceptable results with all their rows, or gives the answer of the first condition that fails and writes nothing |
| `DecisionHistory.RevisionsAreConsecutive` | backend/src/nanexus_event_intelligence/alerts/handler.py:79-103 | under any interleaving the revisions of an observation are exactly 1 to n, in order of commit, and no policy has two |
| `DecisionHistory.LatestIsHighest` | backend/src/nanexus_event_intelligence/api/routes/events.py:661-666 | in every run the latest decision on an observation is the one of the highest revision |
| `DecisionHistory.UndisturbedDecides` | backend/src/nanexus_event_intelligence/alerts/handler.py:39-121 | in every run a handler that no one disturbs adds its policy's decision with the next revision and the row, unless that policy has decided or the key is taken |
| `DecisionHistory.ShadowKeyText` | backend/src/nanexus_event_intelligence/alerts/handler.py:112 | the shadow key written out, and no canonical row has it |
| `DecisionHistory.ShadowRowIffDecision` | backend/src/nanexus_event_intelligence/alerts/handler.py:104-121 | the shadow row of each policy is there exactly if its decision is, in all runs, exactly if the joined names of the policies that may run differ |
| `DecisionHistory.ShadowRowIffNameDecided` | backend/src/nanexus_event_intelligence/alerts/handler.py:112 | in every run a shadow row is there exactly if some policy with its joined name has decided |
| `DecisionHistory.SharedNameHidesDecision` | backend/src/nanexus_event_intelligence/alerts/handler.py:104-121 | for any two policies with one joined name: a run after which, however it goes on, the second one's row is there and its decision is not |
| `FeedbackChain.FeedbackIsOneChain` | backend/src/nanexus_event_intelligence/api/routes/events.py:682-706 | if no post is overtaken, feedback is one unbranched chain whose head is the latest row |
| `FeedbackChain.UnbranchedIffNoneOvertaken` | backend/src/nanexus_event_intelligence/api/routes/events.py:672-682 | in every run feedback is unbranched exactly if no post commits on an observation while another one stands between its look at the latest row and its commit |
| `FeedbackChain.ChainedNext` | backend/src/nanexus_event_intelligence/api/routes/events.py:682-692 | a single move keeps the chain exactly if it commits no row, or one that has read the latest row |
| `FeedbackChain.SerialIsNotOvertaken` | backend/src/nanexus_event_intelligence/api/routes/events.py:652-692 | in serial histories no post is overtaken |
| `FeedbackChain.OverlapBranches` | backend/src/nanexus_event_intelligence/api/routes/events.py:672-682 | two overlapping posts that branch the chain |
| `FeedbackChain.EventDatabase.CreateFeedback` | backend/src/nanexus_event_intelligence/api/routes/events.py:647-692 | adds one row with the verdict given to the latest decision, after anchoring a first one if needed; it supersedes the latest row and becomes the latest itself |
| `ReplayBundle.SplitOfJoin` | backend/src/nanexus_event_intelligence/replay/exporter.py:65-67 | splitting lines undoes newline framing exactly |
| `ReplayBundle.ExportSelects` | backend/src/nanexus_event_intelligence/replay/exporter.py:52-64 | the records are the first `limit` wanted observations in canonical order, and `truncated` holds exactly if there were more |
| `ReplayBundle.LoadOfExport` | backend/src/nanexus_event_intelligence/replay/bundle.py:37-98 | for every store and valid request: the load returns the manifest and records exactly within the byte limits, an error otherwise |
| `ReplayBundle.LoadedIsCanonical` | backend/src/nanexus_event_intelligence/replay/bundle.py:63-98 | whatever is accepted is in canonical order, numbered, of one source, and described by its manifest |
| `ReplayMeaning.RequestMeaning` | backend/src/nanexus_event_intelligence/replay/exporter.py:35-51 | a request is refused for the first of: missing zone, limit outside 1 to 100000, reversed range, existing output, unknown source |
| `ReplayMeaning.ExportMeaning` | backend/src/nanexus_event_intelligence/replay/exporter.py:52-89 | the records are the first in range by time, observation and id, numbered and unchanged; what is left out comes later; the manifest tells source, count and times |
| `ReplayMeaning.SplitMeaning` | backend/src/nanexus_event_intelligence/replay/bundle.py:66 | data is cut at every LF, CR and CR LF and nowhere else |
| `ReplayMeaning.LoadIff` | backend/src/nanexus_event_intelligence/replay/bundle.py:37-98 | a directory loads exactly if manifest and lines are as the loader asks, and then to its manifest and the records of its lines |
| `ReplayFiles.ObservationExporter.Fetch` | backend/src/nanexus_event_intelligence/replay/exporter.py:52-62 | the query yields the first `limit + 1` wanted rows in order |
| `ReplayFiles.ObservationExporter.ExportBundle` | backend/src/nanexus_event_intelligence/replay/exporter.py:25-89 | each invalid request has its error; a valid one yields manifest and files |
| `ReplayFiles.LoadRecords` | backend/src/nanexus_event_intelligence/replay/bundle.py:65-79 | the loop reports the first bad line with its defect, or all records |
| `ReplayFiles.LoadReplayBundle` | backend/src/nanexus_event_intelligence/replay/bundle.py:37-98 | the loader's checks in their order |
| `ReplayEngine.Engine.Run` | backend/src/nanexus_event_intelligence/replay/engine.py:89-125 | one envelope per record in order, with run, bundle, number and event as they are, at the event's own time or, with a clock, starting there and as far apart as the events; the same for every speed and stepper; the engine's digest is the sink's |
| `ReplayEngine.SetupMeaning` | backend/src/nanexus_event_intelligence/replay/engine.py:72-79 | which engines are refused, and why |
| `ReplayEngine.SleptMeaning` | backend/src/nanexus_event_intelligence/replay/engine.py:101-106 | each sleep times the speed is the gap to the event before, none before the first and none unless timed |
| `ReplayEngine.ClockKeepsGaps` | backend/src/nanexus_event_intelligence/replay/engine.py:107-109 | fixed-clock times start at the clock, keep every gap and never go back |
| `ReplayEngine.SleepsAddUp` | backend/src/nanexus_event_intelligence/replay/engine.py:101-106 | on every loaded bundle the sleeps times the speed are last minus first, and the clamp never acts |
| `ReplayEngine.ShadowDecisionDryRunSink.Emit` | backend/src/nanexus_event_intelligence/alerts/replay.py:19-33 | appends the evaluation of the event without objects |
| `ReplayEngine.SinkJudges` | backend/src/nanexus_event_intelligence/alerts/replay.py:19-33 | what it appends is the policy's verdict on the event's kind, lifecycle, labels and zones, without objects |
| `ReplayHistory.ReplayAgreesWithHistory` | backend/src/nanexus_event_intelligence/alerts/handler.py:62-103 | for every decision stored by any run of the event path: export, load and replay give its observation the stored outcome and reasons, and find its rule, unless that looks at stationarity |
| `ReplayHistory.ReplayEvaluates` | backend/src/nanexus_event_intelligence/alerts/replay.py:19-33 | observation by observation, replay evaluates the policy without its stationarity rules |
| `ReplayHistory.EveryObservationIsReplayed` | backend/src/nanexus_event_intelligence/replay/exporter.py:62-64 | nothing wanted is missing unless the manifest says so |
| `ReplayHistory.CommunityReplay` | backend/src/nanexus_event_intelligence/alerts/policy.py:4-41 | under the community policy replay differs exactly where the live outcome was to suppress |
| `ReplayHistory.CommunityOutcomes` | backend/src/nanexus_event_intelligence/alerts/policy.py:4-41 | which facts the community policy escalates, suppresses, sends and ignores, in terms of labels, zones and stationarity |

## Left out

- Networks, clients, TLS, authentication, logging, the web UI and the command lines.
- JSON, SHA-256, UUID and validation internals: payloads are what the three models make of them, a hash is its input, and a payload the model rejects is simply invalid.
- Redaction: a payload is split into what it removes and what it keeps.
- Column lengths: a key longer than its column is not an error here.
- Fractions of a microsecond in source times, and binary floating point in sleeps.
- Time zones of stored times, which are taken as UTC already; naive times are errors only where a request carries them.
- Errors while decoding a stream envelope: every entry was written by the publisher from a row.
- The read side of the events API beyond the latest observation and the latest feedback, media access, the recorder, and the plugin registry.
- Evidence fields other than reference, time and owner, and claim fields other than text and evidence.
- The text of notification messages: a message is its key, outcome, reasons and the fact it is about.
- Interference inside one call of a class: classes describe a call on its own, interleavings and crashes are in the state machines.
- `Runtime.PipelineRuntime.Run`: covers a healthy Redis and database and a finite number of passes; the back-off after errors and the endless loop are not modelled.
- `WorkerProcess.RedisStreamWorker.RunOnce`: an error of Redis in the middle of a round is a worker abort of the state machine, not an outcome of this method.
- `ProcessorJobs.HandedOutAtMostOnce`: a job counts as handed out when its claim commits; a response that is sent although the commit fails is not modelled.
- `ReplayEngine.Engine.Run`: drives the digest sink; the shadow sink is given the same envelopes by `ReplayEngine.ShadowDecisionDryRunSink.EmitAll`.
