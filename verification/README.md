# Freight invoice pipeline: a verified model

This project models the invoice pipeline that works across three stores without a common
transaction: Redis streams hold the jobs and the dead letters, PostgreSQL rows hold documents, runs,
shipments and exceptions, and LangGraph checkpoints hold the workflow. It proves what the three keep
together when workers crash between any two writes, deliveries repeat, operators replay and purge,
and reviewers decide.

## How it is built

| file | what it models |
|---|---|
| `Documents.dfy`, `MissingDocuments.dfy`, `Reconciliation.dfy`, `Shipments.dfy`, `FreightDatabase.dfy` | shipment assembly, the nine checks, the exception row with its event log, and the SLA sweep |
| `WorkflowGraph.dfy` | the graph as a step function over checkpoints, with routing, interrupt and circuit breaker |
| `RunProtocol.dfy`, `CrashResume.dfy`, `Decisions.dfy`, `RunStore.dfy` | one run across row, checkpoint, decision and audit log: the protocol, its refinement by undisturbed deliveries, what becomes of a decision, and the code of worker and reviewer |
| `Delivery.dfy`, `Leases.dfy`, `Retries.dfy`, `Replays.dfy`, `QueueStore.dfy` | the queue: the protocol, exact accounting, the retry bound, operator replays, and the code of the queue services and the delivery handler |
| `Composition.dfy` | the two protocols as one: every joint run projects to a run of the queue and a run of each job |
| `JobRecords.dfy`, `Intake.dfy` | the creation race for documents and runs, and the mail poll |
| `DeadLetters.dfy`, `DeadLetterPages.dfy`, `Outbox.dfy` | purge, pages and the notification outbox |

A protocol is a state, an event type and a total function `Next`; a run is any sequence of events, and
an event that is not possible changes nothing. Results about protocols hold for every sequence. The
classes hold the stores as fields; each of their methods makes its writes one at a time and notes the
matching event, so results about all runs are results about any interleaving of those methods.

Assumptions:

- Each Redis script and each transactional pipeline is one step, and so is each database commit. A
  worker or reviewer may stop for good between any two steps.
- *Nothing is lost*, *posting safety*, the finality of a recorded decision and repeated replay requests
  need nothing else. Exact accounting, the replay invariant and two-store agreement also need that at
  most one worker is active per stream entry and per run: `Leases.Exclusive` and
  `RunProtocol.Exclusive`. `Leases.PartitionKeptIff` says exactly which step breaks the accounting
  without it. The retry bound needs only that heartbeats come from the current owner
  (`Retries.RetryBound`).
- A reclaim counts a delivery; a crash is not a recorded failure.
- What a match finds is arbitrary each time it runs, because it looks at a shared shipment and at the
  clock. Only `CrashResume.CrashResumeRefinement` and what builds on it fix it for a run, since a retry
  that finds something else has another outcome. Extraction enters only through what a match finds,
  and triage decides nothing.
- The digest in an idempotency key keeps different texts apart, and no account or message id holds the
  separator (`Intake.SameKeyIff`).
- Resuming a paused graph makes the reviewer's value visible with the checkpoint written after the
  review node; the review endpoint admits only `approved` and `rejected`.
- Time and deadlines are integers. Money is integer cents and the five percent rule is
  `20 * |invoice - rate| <= |rate|`. Dates are day numbers.

Findings about the code:

- A decided run does not always keep its row. `_mark_job_failed` does not look at the decision, so a
  redelivery that raises before it reads the row, on its last attempt, turns an approved run into a
  failed one; `RunStore.OverwriteDecision` carries the whole run out. With one worker per run nothing
  else does (`Decisions.DecidedRowKeptAlone`). With overlapping workers a stale commit or retrying mark
  does too (`Decisions.DecidedRowKeptIff`, `Decisions.StaleCommitUndecidesRow`). This is weaker than the
  immutable review state the project's documentation describes.
- The same handler can lose a decision. When it fires between the review's two commits, asking for the
  decision again is refused for good (`Decisions.LostIffOverwritten`), and a later replay still carries
  the decision out: the row ends approved and ready for posting with no decision recorded
  (`Decisions.UnrecordedIff`, `Decisions.UnrecordedDecisionPosts`).
- A heartbeat of a delivery that was overtaken puts the delivery count back, and then no bound on
  recorded retries is left (`Retries.CountFallsIff`, `Retries.OvertakenBeatsUnbound`).
- After the SLA setting changes, an exception that is already active keeps its old deadline, because
  the sweep only claims shipments without one (`Shipments.SweepAgreement`,
  `Shipments.ChangedSlaGoesStale`).
- The outbox can deliver a notice twice: exactly when an attempt is not refused although an earlier one
  was delivered and then raised (`Outbox.DuplicateIff`).

## Model

| member | source | states |
|---|---|---|
| `Delivery.NothingIsLost` | app/services/invoice_worker.py:342-437 | For any number of overlapping workers, crashes, reclaims, replays and purges: every entry ever appended is live with its fields and pending or unread, or was acknowledged after its run was seen complete or awaiting review, or has a dead letter copy of its full fields that is still there unless purged |
| `Delivery.EveryRunKept` | app/services/invoice_queue.py:12-260 | The inductive invariant behind it: pending entries are live, live entries are pending or beyond the cursor, tasks carry the fields of their entry, graves carry the fields of theirs |
| `Delivery.HistoryOnlyGrows` | app/services/invoice_queue.py:199-260 | No step rewrites or forgets an appended entry, an acknowledgement, a dead letter or a purge |
| `Delivery.SettledIsObserved` | app/services/invoice_worker.py:187-279 | A key counts as settled only from a step at which its row is complete or awaiting review |
| `Delivery.EvidenceNeverChanges` | app/services/queue_operations.py:294-301 | An operator who read an entry before running the replay script can find it purged, never changed |
| `Delivery.FailedRunStaysOut` | app/services/invoice_worker.py:184-186 | From any reachable state in which a run is marked failed, its live entries are ordinary and no delivery of it is past the first look, over every further interleaving without a replay of it: the row stays failed, no delivery of it enters the graph, none of its entries is acknowledged, and each entry that was live is still live or dead-lettered |
| `Leases.PartitionKeptIff` | app/services/invoice_queue.py:199-260 | A step breaks "each entry is in exactly one of live, acknowledged and dead-lettered, with one grave" if and only if it ends a delivery whose entry another worker already took out of the stream |
| `Leases.Conservation` | app/services/invoice_worker.py:342-437 | With exclusive leases the three places partition the entries ever appended, and the counts add up |
| `Leases.StepHeld` | app/services/invoice_queue.py:132-155 | With exclusive leases every worker holds its own entry pending with its own delivery count, and no delivery ends late |
| `Retries.RetryBound` | app/services/invoice_worker.py:322-339 | With heartbeats only from the current owner, and any number of overlapping deliveries: while an entry is pending it was recorded as retrying at most one time fewer than the attempt limit, and never more often than it was delivered |
| `Retries.BoundWithoutOvertakenBeats` | app/services/invoice_worker.py:389-415 | The same for every run in which no heartbeat comes from a delivery that was overtaken, the owner's or not |
| `Retries.CountFallsIff` | app/services/invoice_worker.py:331-339 | A step puts an entry's delivery count back if and only if it is the heartbeat of a delivery after which the entry was delivered again |
| `Retries.OvertakenBeatsUnbound` | app/services/invoice_worker.py:322-339 | With such heartbeats there is no bound: for every limit of at least two and every number a run records that many retries of an entry and leaves it pending |
| `Retries.OneAttemptNeverRetries` | app/services/invoice_worker.py:389-415 | For a limit of at most one no run records any retry |
| `Leases.ExclusiveRetryBound` | app/services/invoice_worker.py:389-415 | With exclusive leases the bound holds for every entry, pending or not |
| `Leases.LastAttemptOnlyBuries` | app/services/invoice_worker.py:391-407 | Over any interleaving, a delivery that raised at or past the limit and does not crash is still at it, or its entry has been dead-lettered: nothing else lets it out |
| `Retries.OnlyAtLimitBuried` | app/services/invoice_worker.py:352-415 | Over every run a job is dead-lettered only by a delivery at or past the limit; only a payload that does not parse goes at once |
| `Leases.NoRetryPastLimit` | app/services/invoice_worker.py:389-415 | With exclusive leases an entry delivered as often as the limit is never again recorded as retrying, however often it is reclaimed: it stays pending at that count or beyond until it is acknowledged or dead-lettered |
| `Leases.OverlapBuriesTwice` | app/services/invoice_queue.py:229-260 | The concrete run that shows exact accounting needs exclusivity: two overlapping workers write two dead letter copies of one entry |
| `Replays.ReplayInvariant` | app/services/queue_operations.py:26-83 | For every retained dead letter entry: an action is nonterminal exactly while the entry it created is live, only the last request can be nonterminal, the actions are exactly the requests that created one, and the replay count is their number |
| `Replays.RepeatReturnsOriginal` | app/services/queue_operations.py:43-54 | For any number of overlapping workers: repeating a request id answers with the stream id its first use created, however many steps and later replays lie between |
| `Replays.OnlyNewRequests` | app/services/queue_operations.py:56-74 | The script creates only for a request that never created before and behind a finished last action |
| `Replays.NewRequestCreatesIff` | app/services/queue_operations.py:43-83 | With exclusive leases: a new request on a retained entry is answered with a new live entry carrying the job and the replay context, and one more replay in the count, if and only if every entry its earlier requests created was acknowledged or dead-lettered; otherwise it is in progress and nothing changes |
| `Replays.StepReplays` | app/services/invoice_queue.py:158-260 | Every queue step keeps the replay state: reports by workers, acknowledgements, dead letters, purges and new replays |
| `QueueStore.RecordedIsReached` | app/services/invoice_queue.py:86-260 | What the queue methods do, in any order and by any workers, is a run of the delivery protocol |
| `QueueStore.Store.EnqueueJob` | app/services/invoice_queue.py:12-20 | An unexpired dedupe key answers with its entry; otherwise one new entry and its dedupe key appear together |
| `QueueStore.Store.ReadNewBatch` | app/services/invoice_queue.py:113-129 | A batch of at most the given size: exactly the oldest unread entries in order, each pending with count one and handed to its own delivery, all of them when they are fewer; the cursor has passed exactly those |
| `QueueStore.Store.ClaimStaleBatch` | app/services/invoice_queue.py:132-155 | The oldest stale pending entries up to the limit, for any notion of stale; each gets its new owner and one more delivery, each delivery carries that count, and no other lease changes |
| `QueueStore.Store.RecordFailure` | app/services/invoice_queue.py:158-182 | Failure metadata and the replay action are written together; the entry stays pending |
| `QueueStore.Store.Acknowledge` | app/services/invoice_queue.py:199-226 | The entry leaves the stream and the pending table and its replay action becomes acknowledged, in one step |
| `QueueStore.Store.DeadLetter` | app/services/invoice_queue.py:229-260 | The full fields are copied under a fresh id, the entry leaves the stream and the pending table, and its replay action becomes dead-lettered, in one step |
| `Delivery.MarkTouchesOneState` | app/services/invoice_queue.py:43-59 | A report changes the state of one replay action: no count, no last request, no live id, no other action and no other entry's hash |
| `Delivery.ReportStates` | app/services/invoice_queue.py:43-59 | What each step of a worker reports of a replayed entry: processing, retrying, acknowledged, dead-lettered, and nothing else |
| `Delivery.PurgeRemoves` | app/services/queue_operations.py:85-106 | A purge removes exactly the given entries, their replay hashes and the notes of what they were |
| `QueueStore.Store.LoadRow` | app/services/invoice_worker.py:182-199 | The first look at the row: a failed run raises unless replayed, a settled one short-circuits, anything else goes on |
| `QueueStore.Store.ResetRow` | app/services/invoice_worker.py:218-231 | The second look, in a session of its own: a replayed failed run becomes retrying, and nothing else is written |
| `QueueStore.Store.RunWorkflow` | app/services/invoice_worker.py:179-297 | The call raises exactly when the records, the graph or the row commit fail, or an ordinary delivery finds the run failed; a return leaves the row settled |
| `QueueStore.Store.HandleFailure` | app/services/invoice_worker.py:389-415 | At the limit the run is failed and then the entry dead-lettered; below it the failure is recorded; a crash in between leaves the entry live |
| `QueueStore.Store.ProcessDelivery` | app/services/invoice_worker.py:342-437 | Payload, attempt, row and the workflow's fate decide between acknowledgement, dead letter and recorded failure; six store writes are enough for any delivery; a crash leaves the entry pending; the heartbeat renews the delivery's own lease; the replay action follows from being processed to the end; nobody else's row changes |
| `QueueStore.Store.RunReplayScript` | app/services/queue_operations.py:26-83 | Each of the script's six answers exactly when: keys of the wrong type; entry not retained; other evidence; this request created an entry before, with that entry, the count and its state; another last request is enqueued, processing or retrying; created otherwise, with the new entry, the count, the last request and an enqueued action written |
| `QueueStore.Store.ReplayDlqEntry` | app/services/queue_operations.py:272-324 | Missing entry, entry that does not parse, and keys of the wrong type exactly when; otherwise the script's answer on the stored fields; only a created replay writes anything |
| `Composition.EveryJointRunCoupled` | app/services/invoice_worker.py:122-437 | Over every joint run of any number of deliveries and reviewers of any number of runs, from the first delivery on: the queue's part is a run of the delivery protocol, each run's part a run of the run protocol, and both agree on every row and on every delivery at work |
| `Composition.SettledRunIsSettled` | app/services/invoice_worker.py:187-279 | A delivery leaves its run to be acknowledged only by a step after which the run is complete or awaiting review in its own store |
| `Composition.FirstDeliveryIsCovered` | app/services/invoice_worker.py:122-187 | The very first delivery of a job is such a joint run: its row comes into being on the way and both sides get past the first look |
| `WorkflowGraph.RunGraph` | app/workflow/graph.py:60-94 | The graph reaches its end from any iteration count, for any outcomes and any resume values, within a bound on node executions |
| `WorkflowGraph.AtMostSevenNodes` | app/workflow/graph.py:37-57 | From iteration zero at most seven nodes run |
| `WorkflowGraph.NodeShows` | app/workflow/nodes.py:55-287 | What each node leaves in the checkpoint, and that each counts an iteration |
| `WorkflowGraph.RoutesMean` | app/workflow/graph.py:37-94 | The edges: a match goes to review exactly with a reason and within five iterations, the review to what was answered, and past the fifth iteration straight to completion |
| `WorkflowGraph.GraphOutcome` | app/workflow/nodes.py:239-287 | A run ends failed and not ready exactly when an exception got no valid decision; with a decision it alone fixes status and posting; without an exception only a reconciled shipment becomes ready |
| `WorkflowGraph.BreakerAgrees` | app/workflow/graph.py:45-57 | With a valid decision the circuit breaker gives the same status and posting as the approve and reject nodes |
| `WorkflowGraph.ReconciledMeansClean` | app/workflow/nodes.py:117-142 | The checkpoint says reconciled exactly when all nine checks passed and nobody needs to be asked |
| `WorkflowGraph.ReviewAskedIff` | app/workflow/nodes.py:99-142 | A match asks for review if and only if there is no document, or no load number, each with its own reason, or a check other than a required document's failed |
| `WorkflowGraph.AskedNeedsDecision` | app/workflow/nodes.py:239-270 | In those cases a graph run completes exactly with an approved or rejected answer, and otherwise ends failed and not ready |
| `WorkflowGraph.ReadyMeansApprovedOrClean` | app/workflow/nodes.py:259-266 | A checkpoint is ready only if approved, or never reviewed and clean |
| `WorkflowGraph.SlaOnlyNeverReady` | app/workflow/nodes.py:122-151 | A shipment whose only failed checks are overdue documents completes without review and never becomes ready |
| `WorkflowGraph.AdvanceCoherent` | app/workflow/nodes.py:55-287 | Every node keeps what a checkpoint at the next node may hold |
| `RunProtocol.PostingSafety` | app/services/invoice_worker.py:261-279 | For any number of overlapping workers, reviewers, crashes, failures and replays, and matches that find something else each time: a row is ready only if a checkpoint was written with an approval or some match of the run passed all nine checks; it is blocked only if a checkpoint was written with a rejection; and it awaits review, or was answered, only if some match asked for review |
| `RunProtocol.SlaOnlyNeverPosts` | app/workflow/nodes.py:122-151 | A run whose matches only ever found overdue or incomplete paperwork stays not ready, unanswered and undecided, through match, complete, worker persist and review, in every run |
| `RunProtocol.AuditOncePerType` | app/services/audit.py:10-33 | However often nodes and reviewers repeat, each event type is logged once per run and no logged event is lost |
| `RunProtocol.NodeLogs` | app/workflow/nodes.py:66-280 | Which node logs which event: extraction, triage, the raised exception, the failure exactly at a completion that ends failed, the completion exactly at one that ends complete undecided, and never a decision |
| `RunProtocol.RunLogs` | app/workflow/nodes.py:239-280 | Over every graph run the failure is logged exactly when it ends failed, the completion exactly when it ends complete without an approved or rejected answer |
| `RunProtocol.DecisionIsLogged` | app/services/business_state.py:196-207 | Over every run the audit log has an approved row if and only if an approval is recorded, and a rejected row if and only if a rejection is |
| `RunProtocol.TwoStoreAgreement` | app/services/business_state.py:113-211 | With one worker per run: a recorded decision equals the checkpoint's, a run awaiting review has none, a complete row shows the checkpoint's decision or its final values, a ready row means the checkpoint says approved or holds an unreviewed clean match, a blocked one that it says rejected, and a rejected run is never ready; that the shown decision is recorded too is `Decisions.DecidedRowIsRecorded` |
| `RunProtocol.DecisionIsFinal` | app/services/business_state.py:118-140 | For any number of overlapping workers: a recorded decision never changes, and a checkpoint was written with it before |
| `RunProtocol.CheckpointDecides` | app/services/business_state.py:142-181 | With one worker per run: once the checkpoint holds a decision it keeps it, and only that one can be recorded |
| `Decisions.RepairReusesCheckpoint` | app/services/business_state.py:135-158 | With a decision in the checkpoint: as long as the run awaits review, asking for that decision again commits it without running the graph; asking for the other, or when the run no longer awaits review, changes nothing |
| `Decisions.ReviewAdmittedIff` | app/services/business_state.py:113-163 | Exactly when a review call gets to work: no decision recorded, the row awaiting review, and the checkpoint holding the wanted decision or none with nodes left |
| `Decisions.LostIffOverwritten` | app/services/business_state.py:135-140 | With one worker per run: the checkpoint's decision can no longer be recorded, now or later, if and only if a last-attempt handler failed the run between the review's two commits |
| `Decisions.LostIff` | app/services/invoice_worker.py:300-319 | The step that loses a decision is exactly that handler's, and a lost decision stays lost |
| `Decisions.UnrecordedIff` | app/services/invoice_worker.py:261-279 | A row comes to show a decision nobody recorded exactly by a worker's commit of an answered checkpoint on an undecided run, which only a run whose decision was lost comes to |
| `Decisions.DecidedRowIsRecorded` | app/services/business_state.py:183-208 | With one worker per run: a complete row behind an answered checkpoint shows that answer, and it is the recorded decision if and only if the run did not lose it before |
| `Decisions.UnrecordedDecisionPosts` | app/services/invoice_worker.py:224-279 | The whole run, for any job that needs review and either decision, at the end of which the row is approved or rejected, no decision is recorded, and every one is refused |
| `Decisions.AnsweredStaysInStep` | app/services/business_state.py:142-208 | With one worker per run: while no last-attempt handler fires on an answered checkpoint, the run awaits review until that decision is recorded, and shows it from then on |
| `Decisions.InStepKeptIff` | app/services/invoice_worker.py:300-319 | The only step that ends this is that handler's |
| `Decisions.DecidedRowKeptIff` | app/services/invoice_worker.py:261-319 | For any number of workers: a step changes a decided row if and only if it is a last-attempt failure mark, the retrying mark of a graph that raised, or a commit whose row differs |
| `Decisions.DecidedRowKept` | app/services/invoice_worker.py:261-319 | Over every run a decided row stays as decided until such a step |
| `Decisions.DecidedRowKeptAlone` | app/services/invoice_worker.py:300-319 | With one worker per run it stays until a last-attempt handler fires |
| `Decisions.AloneOnlyHandlerRewrites` | app/services/invoice_worker.py:300-319 | With one worker per run, of those steps only the last-attempt handler's is possible |
| `Decisions.StaleCommitUndecidesRow` | app/services/invoice_worker.py:261-279 | The concrete run that needs two overlapping workers: the stale commit of one turns a decided row back into an awaiting one |
| `Decisions.FinalFailureOverwritesDecision` | app/services/invoice_worker.py:391-393 | A redelivery that cannot load its records on its last attempt turns a decided row into a failed one while the decision stays |
| `CrashResume.CrashResumeRefinement` | app/services/invoice_worker.py:179-297 | After any number of crashes, failures and replays at any step, the next undisturbed delivery ends with the same row, checkpoint and audit rows as one undisturbed delivery; its audit rows are extraction and completion, or extraction, triage and the raised exception; a failed run needs a replay for that |
| `CrashResume.DeliveryOutcome` | app/workflow/nodes.py:99-280 | From the document to the row: a first undisturbed delivery pauses for review exactly without a document, without a load number or with a failed content check, and otherwise completes, ready for posting exactly when all nine checks passed |
| `CrashResume.FinalRowMeaning` | app/services/invoice_worker.py:261-279 | Where that is: paused when something needs review, otherwise complete, and ready exactly when reconciled |
| `CrashResume.UndisturbedSettles` | app/services/invoice_worker.py:232-279 | From any resumable state an undisturbed delivery terminates with a settled row |
| `CrashResume.DisturbedRunsResumable` | app/services/invoice_worker.py:246-260 | Every disturbed run without a review stays resumable: the checkpoint is on the undisturbed path and the audit rows fit it |
| `RunStore.Stores.PersistRunState` | app/services/invoice_worker.py:51-65 | The three dimensions of the row are written field by field; an omitted processing status is the status text, an omitted posting status stays |
| `RunStore.Stores.LoadRun` | app/services/invoice_worker.py:182-199 | The first look at the row decides whether to raise, to short-circuit or to go on |
| `RunStore.Stores.ResetRun` | app/services/invoice_worker.py:218-231 | The second look, in the session that commits the row: an operator replay resets a failed run |
| `RunStore.Stores.InvokeGraph` | app/services/invoice_worker.py:232-260 | The graph call starts from the first or the last checkpoint and returns at the end or the interrupt, or raises, or dies |
| `RunStore.Stores.CommitRun` | app/services/invoice_worker.py:261-279 | The commit leaves an awaiting row at the interrupt and the final values at the end |
| `RunStore.Stores.RunWorkflowForJob` | app/services/invoice_worker.py:179-297 | One delivery under any fate at each of its steps: finished means settled and, before any review, the awaiting row with extraction, triage and exception logged, or the complete one with extraction and completion, as the match asks; a failed run raises before the graph; a settled one is left as it is |
| `RunStore.Stores.MarkJobFailed` | app/services/invoice_worker.py:300-319 | The handler fails the row without looking at the decision or the checkpoint |
| `RunStore.Stores.Resume` | app/services/business_state.py:164-181 | Resuming the paused graph finishes within four nodes with the wanted decision in the checkpoint, or stops at a crash |
| `RunStore.Stores.CommitDecision` | app/services/business_state.py:183-208 | Decision, row and audit row are committed together: an approval leaves the approved, ready row and an approved audit row and no rejected one, and a rejection conversely |
| `RunStore.Stores.DecideReview` | app/services/business_state.py:113-211 | Each outcome is decided by the two stores as they were: recorded, already recorded, conflict or not awaiting; a recorded decision has its own row and audit row and not the other's; both checkpoint conflicts beyond these cannot occur; a crash commits nothing; a checkpoint decision is reused without the graph |
| `RunStore.OverwriteDecision` | app/services/invoice_worker.py:389-407 | The whole run, for any job that needs review, at the end of which the approval is recorded and the row says failed |
| `JobRecords.OneRunPerKey` | app/services/invoice_worker.py:122-176 | Over any creation races and crashes a key has at most one document and that exactly one run; every asker gets that one; the missing-run branches are unreachable |
| `JobRecords.AskerAlone` | app/services/invoice_worker.py:122-176 | An asker that nobody interrupts gets the key's document, or the new one with its run, and nothing else changes |
| `JobRecords.RaceEndsTogether` | app/services/invoice_worker.py:145-176 | Of two askers that found nothing the first insert wins, and the other ends with the winner's document |
| `JobRecords.Store.GetOrCreate` | app/services/invoice_worker.py:122-176 | The existing document, the rival's, or a new one with its run; nothing else changes |
| `MissingDocuments.EvaluatePolicy` | app/services/missing_document_sla.py:55-100 | State, deadline, missing documents, reason codes and one check per required document, in table order |
| `MissingDocuments.PolicyMeans` | app/services/missing_document_sla.py:55-100 | For any table, document by document: a present one passes, a missing one fails from the deadline on with its own reason and waits before; overdue, within grace or complete accordingly |
| `MissingDocuments.SyncException` | app/services/missing_document_sla.py:114-208 | The row and event it writes are the versioned log's next step, for every log behind the row |
| `MissingDocuments.LogReconstructsRow` | app/services/missing_document_sla.py:184-206 | Over any synchronizations versions run without gaps, each before-state is the previous after-state and differs from its own after-state, the events alone rebuild the row, and resolved-at is set exactly when resolved |
| `MissingDocuments.SyncIdempotent` | app/services/missing_document_sla.py:174-181 | The same policy synchronized again records nothing |
| `MissingDocuments.ObservedRunsThePolicy` | app/services/missing_document_sla.py:114-208 | The lifecycle results speak of the policy evaluated and synchronized at each moment |
| `MissingDocuments.LifecycleBound` | app/services/missing_document_sla.py:130-208 | With a fixed SLA, flags only set and a clock that does not go back: opened, changed and at most one final resolved, each missing list a proper subset of the one before, at most five events, and active exactly when the latest observation is overdue |
| `Shipments.LifecycleOfAnyHistory` | app/services/missing_document_sla.py:130-255 | Over every history of arrivals and sweeps with a fixed SLA and a clock that does not go back, whose flags grow because of what arrives: that lifecycle, and at most five events |
| `MissingDocuments.ClosedIsFinal` | app/services/missing_document_sla.py:183-191 | A resolved exception never reopens |
| `Reconciliation.CheckLists.Add` | app/services/reconciliation.py:74-91 | One check appended, and its reason exactly when it failed, so the reasons stay those of the failed checks |
| `Reconciliation.CheckLists.AddContentChecks` | app/services/reconciliation.py:127-210 | The four content checks in order: the invoice total against the agreed rate with a twentieth of tolerance, the carriers, the pickup day within one day, and the complete proof of delivery, each not evaluated exactly when a side cannot be read |
| `Reconciliation.Classify` | app/services/reconciliation.py:228-237 | The status from the two lists |
| `Reconciliation.EvaluateShipment` | app/services/reconciliation.py:124-237 | All nine checks from the documents' own fields, in the order the fields are tried, the flags and the clock, with the arithmetic written out; the missing list in table order; and the status from the outcomes |
| `Reconciliation.ReasonsAreFailedChecks` | app/services/reconciliation.py:217-226 | There are nine checks and the exception reasons are exactly the in-order reason codes of the failed ones |
| `Reconciliation.StatusMeaning` | app/services/reconciliation.py:228-237 | Exception exactly when some check failed, reconciled exactly when all nine passed, otherwise partial |
| `Reconciliation.ReviewIffContentFailure` | app/workflow/nodes.py:122-142 | Review is requested exactly when a check other than an SLA check failed |
| `Reconciliation.LaterOnlyExpires` | app/services/missing_document_sla.py:67-85 | With documents fixed, later time only turns pending required-document checks into overdue ones |
| `Shipments.FirstKeepsSlot` | app/services/shipment.py:127-133 | The first document of a kind keeps the slot whatever arrives later |
| `Shipments.UpsertMeans` | app/services/shipment.py:100-150 | What one document does to each column: slots set once, flags, the rate table's companion, the carrier's three sources, and the status by the number of documents |
| `Shipments.CaseMeans` | app/services/reconciliation.py:94-123 | Which document feeds which check: each slot's own, with the rate table's row over the rate-confirmation slot |
| `Shipments.FlagsAreKindsSeen` | app/services/shipment.py:128-138 | The flags are the kinds seen, plus the rate confirmation's when the table has a row |
| `Shipments.AssemblyConfluence` | app/services/shipment.py:100-150 | Two orders with the same first document of each kind assemble the same evidence |
| `Shipments.SlotsRememberFirsts` | app/services/shipment.py:131-133 | Without a table row two orders give the same slots if and only if the first documents agree |
| `Shipments.PermutationsHaveSameFirsts` | app/services/shipment.py:100-150 | With one document per kind, and any number of unclassified ones, every permutation with repeats has the same firsts |
| `Shipments.ArrivalOrderConfluence` | app/services/shipment.py:100-150 | Whatever the order, the interleaved reconciliations and the repeats, the same final time gives the same flags, evidence, checks and status |
| `Shipments.RateSlotDependsOnOrder` | app/services/shipment.py:76-133 | With a rate-confirmation row, two orders leave the same document in its slot if and only if the same one holds it first: on a fresh shipment, when both begin with the same rate confirmation or neither begins with one; the evaluation is the same either way |
| `Shipments.FirstArrivalTakesRateSlot` | app/services/shipment.py:76-97 | After any arrivals that slot holds what was there, else the very first arrival if it is a rate confirmation, else the companion document |
| `Shipments.SweepAgreement` | app/services/missing_document_sla.py:211-255 | After a sweep the exception agrees with the paperwork if and only if the one before was current |
| `Shipments.ChangedSlaGoesStale` | app/services/missing_document_sla.py:213-219 | A changed SLA leaves an active exception with its old deadline |
| `Shipments.SweepAgreesAfterAnyHistory` | app/services/missing_document_sla.py:211-262 | With a fixed SLA and a clock that does not go back, after any arrivals and sweeps an active exception exists for exactly the overdue shipments, with the missing documents |
| `FreightDatabase.Database.UpsertShipment` | app/services/shipment.py:100-150 | No load number changes nothing; otherwise the row and its id are created once, the row is assembled from the document and the rate table, the document is linked to it, and so is the companion that fills an empty slot, the only document created or refreshed |
| `FreightDatabase.Database.AttachExistingRateConfirmation` | app/services/shipment.py:76-97 | An empty rate-confirmation slot takes the companion document of the table row |
| `FreightDatabase.Database.CompanionDocument` | app/services/shipment.py:47-73 | One companion document per rate confirmation, refreshed with its extraction and linked to the shipment |
| `FreightDatabase.Database.ReconcileShipment` | app/services/reconciliation.py:94-280 | One transaction: status and override flag, the result under its key, and the synchronized exception |
| `FreightDatabase.StoreResultOnce` | app/services/reconciliation.py:239-270 | A key ends with exactly one result, the new one, and no other key's count changes |
| `FreightDatabase.StoreKeepsUnique` | app/models/reconciliation_result.py:18-31 | Both unique keys of the results stay unique |
| `FreightDatabase.Database.OldestCandidate` | app/services/missing_document_sla.py:213-235 | The claimed shipment is the first unlocked candidate, older first and then by id, and none is claimed only when there is none |
| `FreightDatabase.Database.ClaimAndEvaluateOne` | app/services/missing_document_sla.py:211-255 | One claim reconciles exactly the first unlocked candidate and stores its result under the key of its deadline and gaps |
| `FreightDatabase.Database.ScanMissingDocumentSlas` | app/services/missing_document_sla.py:258-262 | The scan terminates, counts the unlocked candidates, reconciles each of them once and nothing else, and leaves none of them; afterwards every shipment but the locked candidates has an exception that agrees with its paperwork if and only if the one before was current |
| `DeadLetters.DeadLetterStore.PurgeBatch` | app/services/queue_operations.py:85-106 | The oldest entries before the cutoff, up to the limit, go with their metadata, and it is known whether older ones remain |
| `DeadLetters.DeadLetterStore.Purge` | app/services/queue_operations.py:363-394 | The batched loop terminates, whatever workers dead-letter before each batch: it takes exactly the oldest entries of all, before the cutoff, never fewer than the start held up to the maximum; has-more is true exactly when older ones remain; a key of the wrong type changes nothing |
| `DeadLetters.PurgeIgnoresLateArrivals` | app/api/routes/queue_operations.py:148-163 | When nothing dead-lettered meanwhile is before the cutoff, which a cutoff in the past gives, the quota is that of the start |
| `DeadLetters.WithoutMeans` | app/services/queue_operations.py:91-103 | What is left are the entries after that prefix and exactly the metadata of none of those taken |
| `DeadLetters.PurgeTakesOldest` | app/services/queue_operations.py:363-394 | Everything taken is before the cutoff, everything at or after it is spared, and a purge below its maximum leaves nothing older |
| `DeadLetters.CutoffIsMoment` | app/services/queue_operations.py:374 | With the cutoff of a moment exactly entries of an earlier millisecond are taken and the others spared |
| `DeadLetterPages.ListDlqEntries` | app/services/queue_operations.py:247-269 | A page is the newest unread entries with their replay hashes, and carries a cursor exactly when there are more |
| `DeadLetterPages.PageFacts` | app/services/queue_operations.py:255-268 | A page is newest first, lies between its cursors and misses nothing between them |
| `DeadLetterPages.BrowseDescends` | app/services/queue_operations.py:247-269 | Following the cursors never shows an entry twice, whatever is appended or purged meanwhile |
| `DeadLetterPages.BrowseKeepsSurvivors` | app/services/queue_operations.py:247-269 | An entry there at every page read is seen |
| `DeadLetterPages.BrowseIsReverseScan` | app/services/queue_operations.py:247-269 | While entries are only appended, following the cursors to the end shows exactly what the first page's moment held, newest first |
| `DeadLetterPages.BrowseFinishes` | app/services/queue_operations.py:247-269 | While entries are only appended, following the cursors comes to an end within one page more than there were unread entries |
| `DeadLetterPages.ReadAll` | app/services/queue_operations.py:247-269 | A client's loop over the cursors equals one reverse scan, for any limit of at least one |
| `Outbox.Outbox.Dispatch` | app/services/notifier.py:193-254 | The loop terminates; as many of the oldest waiting notices become sent as attempts succeed in a row, the next one becomes failed if the run was stopped, nothing else changes, and the count is exact |
| `Outbox.AtMostOneSend` | app/services/notifier.py:224-254 | Over all runs with concurrent dispatchers and crashes no notice is reported sent more than once, a sent one exactly once and a waiting one never, a notice shows an error exactly while it is failed, and its count covers every attempt that reached the mail service |
| `Outbox.DeliversAgainIff` | app/services/notifier.py:230-246 | A step delivers a notice to readers who already had it if and only if it is an attempt that is not refused at a notice of which an earlier attempt was delivered and raised |
| `Outbox.DuplicateIff` | app/services/notifier.py:193-254 | Over all runs a notice was delivered more than once if and only if some step was such an attempt |
| `Outbox.AbandonedStays` | app/services/notifier.py:224-228 | A notice left sending by a crash is never sent again |
| `Outbox.LostIsSentAgain` | app/services/notifier.py:230-246 | The concrete run in which an attempt raises after delivering and the notice is delivered twice |
| `Intake.IterAttachmentParts` | app/services/gmail_poller.py:34-47 | Every part at any depth with a file name, a supported extension and content, nested parts first, once for each place it stands |
| `Intake.Inbox.QueueJobs` | app/services/gmail_poller.py:155-177 | Unless an enqueue raises, every key ends with a dedupe entry; each new dedupe key is one of the jobs' and names its own new live entry, no other entry is new, and known keys add nothing |
| `Intake.SameKeyIff` | app/services/gmail_poller.py:111-115 | Two attachments have the same idempotency text if and only if they are the same part of the same message of the same account |
| `Intake.Inbox.PollInbox` | app/services/gmail_poller.py:131-197 | The poll stops at the first message whose download, enqueue or marking raises; the messages before it are marked read exactly when they have attachments, all of whose keys, one for each supported attachment of the part tree, then have their entries; the rest stay unread; a poll of known keys adds nothing |
| `Intake.WithJobsIs` | app/services/gmail_poller.py:148-183 | The number a poll reports is that of the messages with attachments |
| `Intake.HasJobsIff` | app/services/gmail_poller.py:34-47 | A message has jobs exactly when some part of its tree, at any depth, is a supported attachment |

## Left out

- Gmail, the language model, e-mail transport, OAuth, MIME decoding, base64, SHA-256 and JSON: foreign code. A payload either is a job with a key or never parses; an attachment's extension test is a flag of the part.
- Redis and PostgreSQL internals, including persistence and lock waiting: only atomic steps, unique keys and row locks are modelled.
- Rounding of floating-point amounts, date parsing and Unicode case rules: amounts are cents, dates are day numbers, carrier names are already normalized.
- `interrupt_payload`, messages and error texts: a retry merges error text into the payload, so runs are compared by their three status dimensions, checkpoint and audit rows.
- RunProtocol.TwoStoreAgreement: states agreement on the decision, not that the checkpoint has finished; a crash while the graph resumes can leave nodes after the review unexecuted for good.
- QueueStore.Store.ReadNewBatch: a read that waits for entries is the read that ends the waiting; `_process_batch` runs several deliveries in one event loop, which in the protocol is any interleaving of their steps, while `QueueStore.Store.ProcessDelivery` runs one of them through.
- QueueStore.Store.ClaimStaleBatch: idle times are a predicate on entries, so in the protocol an entry may be reclaimed at any time; that Redis examines a bounded number of pending entries in one claim is not modelled.
- DeadLetters.DeadLetterStore.Purge: the metadata of replays and failures that workers write between two batches.
- Decisions.StaleCommitUndecidesRow: a commit writes the whole row, where the session of a stale worker writes only the columns it changed since it loaded the row; with overlapping workers the posting column can therefore keep the decision's value. With one worker per run both write the same.
- Retries.RetryBound: entries that left the stream are not bounded; a delivery that reads its count after that reads one (`Leases.ExclusiveRetryBound` has them under exclusive leases).
- Delivery.NothingIsLost: an entry a purge removed is only known to have been dead-lettered before; the purge of protocol runs takes any set of entries, and which ones the service takes is `DeadLetters.DeadLetterStore.Purge`.
- Outbox.AtMostOneSend: the text of a notice and the order among rows that others hold locked are not modelled; a claim may take any waiting notice.
- Forged replay context on entries that did not come from a replay, and dead letter entries written by anything but the worker.
- The workflow status field of a replay action, timestamps and failure reason texts in the queue metadata.
- `POST /workflow/run`, health endpoints, queue metrics, batch summary e-mail, analytics, migrations, the legacy status adapters and the user interface: plumbing or single-branch code that would only add easy members.
