# Record store, agent and approval gate: a Dafny model

The repository answers alerts with incidents. Alerts arrive one by one and are folded into incidents; an
investigation collects evidence, asks an untrusted language model for an explanation, and proposes a
remediation; a human approves it; a rollback is executed. Everything is kept in one relational store that every
API request reads and writes. This project models that store as a state machine over API requests and proves what
every request keeps, whatever the requests, the telemetry sources, the language model and the humans do.

`dafny verify dfyconfig.toml` checks the whole project. There is nothing to run.

## How the model is laid out

- **Data**: `Schema` (tables and rows), `Json` (JSON values, the canonical printer and a parser that inverts it).
- **Services as functions**: `Ingestion`, `Investigation`, `Gate`, `Collection`, `Analysis`, `Agent`,
  `Orchestrator` and `Webhook` give, for every service of the source, the tables it leaves behind and its answer.
- **Services as code**: `Store.Session` is the session of a request: a working copy of the tables and the committed
  tables behind it, with flush, commit and rollback. Its methods write in the order the source writes, and each is
  proved equal to the function that specifies it. `GraphRun.Graph`, `Retry.HttpConnector` and
  `Ranking.RunbookRetriever` do the same for the graph, the HTTP client and the runbook index.
- **The invariant**: `Correlation` (alerts, incidents, time windows, timeline), `Provenance` (records, approvals,
  incident status), and their conjunction `Soundness.Sound`. `AlertSteps`, `CaseSteps`, `ApprovalSteps`,
  `Analysis`, `InvestigationSteps` and `System` prove that every request keeps it, and `History` what no request
  undoes.
- **Main results**: `Guarantees`, `Outcomes`, `IncidentShape`, and the answers of requests told in rows of the store
  in `AlertAnswers` and `RuleAnswers`; complete histories in `Example`; and, about single algorithms, `SnakeCase`,
  `Escaping`, `Retry` and `Ranking`.

`System.Step` is one API request together with everything the outside world contributes to it: which of several
equally ranked rows a query returns, what each telemetry source does, what the language model answers, whether the
rollback recovered the service. `System.IsRun` is a history: the store starts empty, and each request happens at a
time not before the previous one. The theorems in `Guarantees` and `Outcomes` hold for every history.

## Where code and documentation disagree

The model follows the code.

- `docs/SAFETY.md:51` asks that an approval has not expired when its action is executed. `execute_approval`
  (`apps/api/app/services/remediation_service.py:33-45`) does not look at the expiry, and nothing calls
  `verify_backend_approval`, which does. `Outcomes.ExecutesExactly` says when an execution is committed,
  `Outcomes.ExecutionObeysPolicyExactly` when it agrees with the policy, and `Example.ResolvedAndReopened` is a
  history in which it does not.
- `docs/SAFETY.md:40` includes the service name in the action hash; the code hashes action, parameters and run.
- `docs/ARCHITECTURE.md:43-56` draws RESOLVED, REJECTED and FAILED as final, but the approval services set the
  status unconditionally. `Outcomes.TerminalStatusesMoveExactly` says which requests move an incident out
  of them, and in `Example.ResolvedAndReopened` one does. A failed rollback is flushed and then dropped by the
  route, so FAILED and EXECUTING are never committed (`Guarantees.StatusFollowsFromRecords`).
- `apps/worker/agent/nodes/generate_hypotheses.py:116` says the confidence is checked again when grounding is
  validated; it is not. Its own check is a `<`, which lets NaN pass:
  `Agent.CompletedReachesThresholdExactly`, `Agent.NaNConfidenceCompletes`. Such an answer completes the graph, and
  then makes the request fail when the hypothesis is stored: `Guarantees.InvestigationEnds`.
- Deduplication skips an empty external id, so a second alert with one violates the unique column; that is the only
  way ingestion fails: `Guarantees.AlertsArePartitionedAlways`, `Example.RepeatedEmptyIdFails`.
- A collection whose window ends before the incident started fails in its first query and leaves its run RUNNING:
  `InvestigationSteps.InterruptedExactly`, `InvestigationSteps.InterruptedLeavesRunning`,
  `Example.BackwardsWindowNeverEnds`.

## Model

| member | source | states |
|---|---|---|
| Json.SortedKeysAreUnique | apps/api/app/services/approval_service.py:34-38 | The keys of an object can be sorted in one way only, so the order of insertion never reaches the hashed text. |
| Json.ReadInvertsPut | apps/api/app/services/approval_service.py:34-38 | A parser reads back exactly the value that was printed, followed by exactly the text behind it, for every value and every continuation that cannot extend a number. |
| Json.CanonicalIsInjective | apps/api/app/services/approval_service.py:34-38 | Two JSON values with the same canonical text are equal. |
| Gate.ActionTextIsInjective | apps/api/app/services/approval_service.py:33-39 | The hashed text determines the action, its parameters and the agent run. |
| Gate.ActionTextIs | apps/api/app/services/approval_service.py:34-38 | The hashed text itself: action, run and parameters, in the order of their keys and without spaces. |
| Gate.PolicyIsGatePlusExpiry | apps/api/app/services/remediation_service.py:30-45 | For a stored approval and its own action, the backend policy accepts exactly when execution is not stopped by the approval's status, execution, action or hash, and the approval has not expired. |
| Gate.ExecutionIgnoresExpiry | apps/api/app/services/remediation_service.py:33-45 | An execution that goes through is one the policy would refuse exactly when the approval has expired. |
| Gate.PolicyBindsAction | apps/worker/agent/policies/safety.py:41-99 | Without hash collisions the policy accepts, for an approval, only the action, parameters and run its hash was made from. |
| Gate.PolicyAcceptsExactly | apps/worker/agent/policies/safety.py:41-99 | Without hash collisions the policy accepts exactly the action, parameters and run that were hashed, for an approved and unexecuted approval of an allow-listed action that has not expired. |
| Guarantees.PolicyAcceptsOnlyTheRequestedAction | apps/worker/agent/policies/safety.py:41-99 | In every history, what the policy accepts for an approval at any moment is what was recorded when the approval was requested, at any earlier moment. |
| Guarantees.EveryResolutionHasProvenance | apps/api/app/services/remediation_service.py:79-92 | In every history, a RESOLVED incident has an approval that was decided in time and executed at the recorded resolution time, for an allow-listed recommendation whose hypothesis is cited, every citation being evidence of the same run of this incident, from a tool call that succeeded if from any. |
| Guarantees.HypothesisIsGrounded | apps/api/app/services/investigation_service.py:108-134 | Every stored hypothesis has a citation, and every citation is evidence of its own run and incident. |
| Guarantees.StatusFollowsFromRecords | apps/api/app/services/approval_service.py:67-70 | In every history: NEW exactly without a run, an early status exactly without an approval, APPROVED and REJECTED only after such a decision, EXECUTING, FAILED and COMPLETED never; the resolution time is set exactly when some approval succeeded, and is the latest such time. |
| Provenance.StatusLeavesTrace | apps/api/app/models/enums.py:17-24 | An incident in a terminal status has a rejected or an executed approval. |
| Guarantees.AlertsArePartitionedAlways | apps/api/app/services/incident_service.py:76-152 | In every history each alert is in exactly one incident, whose alerts share service and type; ingestion fails exactly on an empty external id that is already taken. |
| IncidentShape.LookupIsExact | apps/api/app/services/incident_service.py:79-97 | The duplicate lookup of a non-empty external id yields at most one row, and one exactly when such an alert is stored. |
| IncidentShape.LookupFinds | apps/api/app/services/incident_service.py:79-97 | A stored alert with that external id is found, together with the incident it is linked to. |
| IncidentShape.IngestAbortsExactly | apps/api/app/services/incident_service.py:79-112 | Ingestion is aborted exactly for an empty external id that some alert already has. |
| Example.RepeatedEmptyIdFails | apps/api/app/services/incident_service.py:79-112 | In every configuration there is a history after which an alert with an empty external id cannot be ingested. |
| AlertAnswers.FoundIsLatestNeighbour | apps/api/app/services/incident_service.py:57-73 | The correlation query finds an incident exactly when some linked alert of an open incident has the requested service and kind and starts within the window of the new alert, and then one of those incidents that started last. |
| AlertAnswers.IngestAnswersExactly | apps/api/app/services/incident_service.py:76-176 | Every answer in rows: aborted, duplicate, opened or joined, with its exact condition; the alert row, its link and the incident row that are stored, and nothing else. |
| Guarantees.EveryIngestionIsExact | apps/api/app/services/incident_service.py:76-176 | The exact answer of an ingestion in every history. |
| AlertAnswers.RanksAreOrdered | apps/api/app/models/enums.py:34-39 | Severities are ordered low, medium, high, critical. |
| Correlation.IngestPreserves | apps/api/app/services/incident_service.py:76-152 | Ingesting any alert keeps the partition, the uniqueness of external ids, the chains, the spacing of open incidents and the faithfulness of every timeline. |
| IncidentShape.ChainBound | apps/api/app/services/incident_service.py:57-71 | Listed by start time, the first n alerts of an incident have neighbouring gaps of at most the window and span at most (n - 1) windows. |
| Guarantees.IncidentsAreChains | apps/api/app/services/incident_service.py:114-152 | The chain bound in every history, whatever order the alerts arrived in. |
| IncidentShape.OpenIncidentsAreSpaced | apps/api/app/services/incident_service.py:114-129 | Two incidents of one service and alert type, neither of which was ever closed, start more than a window apart. |
| IncidentShape.PackingBound | apps/api/app/services/incident_service.py:114-129 | At most L / (w + 1) + 1 such incidents start inside an interval of length L. |
| Guarantees.OpenIncidentsArePacked | apps/api/app/services/incident_service.py:49-73 | Spacing and packing in every history. |
| IncidentShape.SeverityIsMaximum | apps/api/app/services/incident_service.py:179-192 | The severity of an incident is the greatest severity of its alerts. |
| Guarantees.TimelineIsAlwaysFaithful | apps/api/app/services/incident_service.py:119-192 | In every history, folding an incident's events in insertion order rebuilds its alerts and its severity; one creation, one correlation for each further alert, at most three escalations, each starting from the severity before it; and the severity is the greatest of its alerts. |
| Store.Session.GetOrCreateService | apps/api/app/services/incident_service.py:38-46 | Returns the service of that name, creating it if there is none. |
| Store.Session.EscalateSeverity | apps/api/app/services/incident_service.py:179-192 | Severity only goes up, and a rise is put on the timeline with the severity before it. |
| Store.Session.IngestAlert | apps/api/app/services/incident_service.py:76-176 | Leaves the committed tables and the answer of the specification, on the duplicate, new, correlated and failing branches alike. |
| Store.Session.StoreNewAlert | apps/api/app/services/incident_service.py:99-153 | Adding the alert before searching, and linking it last, gives the specified tables; a failed flush also takes back the service created before it. |
| Store.UnlinkedIsNotCorrelated | apps/api/app/services/incident_service.py:111-116 | The alert flushed before the correlation query does not change its result. |
| SnakeCase.SnakeCaseIsNormal | apps/api/app/api/v1/integrations.py:33-35 | The result has only a-z, 0-9 and single inner underscores. |
| SnakeCase.NormalFormIsFixed | apps/api/app/api/v1/integrations.py:33-35 | Names in normal form are unchanged, so normalising twice is normalising once. |
| SnakeCase.SnakeCaseKeepsLetters | apps/api/app/api/v1/integrations.py:33-35 | The letters and digits of the result are those of the input, lower-cased, in order. |
| SnakeCase.SnakeCaseIsEmptyExactly | apps/api/app/api/v1/integrations.py:33-35 | The result is empty exactly for an input without ASCII letters and digits. |
| SnakeCase.SnakeCaseSpells | apps/api/app/api/v1/integrations.py:33-35 | The replacements equal one pass that writes letters and digits in lower case, with one underscore between two of them exactly if the second is a capital or other characters stand between them. |
| Webhook.ExternalIdsAgreeExactly | apps/api/app/api/v1/integrations.py:47-51 | Two fingerprinted alerts get the same external id exactly when fingerprint and start time agree in the 115 characters the column leaves them. |
| Webhook.FittingFingerprintsIdentify | apps/api/app/api/v1/integrations.py:47-51 | For fingerprints of one length that fit, exactly the same fingerprint at the same start is the same alert. |
| Webhook.DeliveryAddsUp | apps/api/app/api/v1/integrations.py:65-98 | Every alert of a delivery is counted once as ingested, duplicate or ignored, and no incident is listed twice. |
| AlertAnswers.ConvertsExactly | apps/api/app/api/v1/integrations.py:38-62 | Service, kind, severity, start and external id of the request in terms of the labels and their order, and that only the lengths of service and kind can refuse it. |
| AlertAnswers.IngestedLeavesRow | apps/api/app/api/v1/integrations.py:38-90 | An alert counted as ingested was firing and left a new row with exactly what its labels, start and fingerprint say. |
| Guarantees.DeliveriesStoreWhatWasSent | apps/api/app/api/v1/integrations.py:65-98 | In every history, each alert a delivery counts as ingested has such a row, and the row is committed. |
| Webhook.StoredIsDuplicate | apps/api/app/services/incident_service.py:79-97 | An alert whose external id is stored is answered as a duplicate with the incident it is in, and nothing is written. |
| Webhook.RedeliveryChangesNothing | apps/api/app/api/v1/integrations.py:65-98 | Redelivering fingerprinted alerts to a store that still remembers them writes nothing, lists the same incidents in the same order, and stops at the same alert if the first delivery stopped. |
| Webhook.DeliveryFailsExactly | apps/api/app/api/v1/integrations.py:74-83 | A delivery of fingerprinted alerts stops exactly when some firing alert converts to a request the schema refuses. |
| Guarantees.RedeliveryIsIdempotent | apps/api/app/api/v1/integrations.py:47-98 | In every history, delivering a payload again at any later time changes nothing, ingests nothing and answers the same incident list; a delivery that stopped in the middle stops again in the same place, which happens exactly at an alert the schema refuses. |
| Store.Session.ReceiveWebhook | apps/api/app/api/v1/integrations.py:65-98 | The loop counts, commits and stops as specified, also when one alert fails in the middle; what an alert is stored as is stated by the rows on conversion. |
| Store.Session.CreateAgentRun | apps/api/app/services/investigation_service.py:49-66 | Adds a pending run and its event, or refuses an unknown incident without writing. |
| Store.Session.RecordToolCall | apps/api/app/services/investigation_service.py:69-76 | Adds a tool call to an existing run, or refuses without writing. |
| Store.Session.RecordEvidence | apps/api/app/services/investigation_service.py:79-105 | Adds evidence for the run's incident; a tool call that is missing, failed or of another run is refused without writing. |
| Store.Session.RecordHypothesis | apps/api/app/services/investigation_service.py:108-134 | Adds the hypothesis with one citation for each cited id, unless some id is not evidence of the run. |
| Store.Session.RecordRecommendation | apps/api/app/services/investigation_service.py:137-154 | Adds a recommendation for a cited hypothesis of the same run, and refuses all others without writing. |
| Store.Session.RequestApproval | apps/api/app/services/approval_service.py:42-83 | Returns the approval the recommendation already has, or adds a pending one that expires in thirty minutes and moves the incident. |
| Store.Session.DecideApproval | apps/api/app/services/approval_service.py:86-129 | Decides a pending approval that has not expired and whose hash still fits, or refuses without writing. |
| Store.Session.ExecuteApproval | apps/api/app/services/remediation_service.py:27-93 | Passes the tests in the source's order; a failed recovery leaves its flushed changes in the session and raises. |
| Store.Session.CarryOut | apps/api/app/services/remediation_service.py:55-93 | After EXECUTING the incident ends as RESOLVED with the execution time, or as FAILED. |
| Guarantees.ApprovalsAreTimelyAndUnique | apps/api/app/services/approval_service.py:42-129 | In every history a recommendation has at most one approval, decided inside thirty minutes of its creation, and executed only after it was approved. |
| Guarantees.DecidedAtMostOnce | apps/api/app/services/approval_service.py:92-110 | In every history an approval is decided by at most one request. |
| Guarantees.ExecutedAtMostOnce | apps/api/app/services/remediation_service.py:33-45 | In every history an approval is executed by at most one committed request. |
| Guarantees.HistoryOnlyMovesForward | apps/api/app/services/approval_service.py:86-129 | Between any two moments of a history: alerts stay where they were put; the timeline is only appended to; an incident keeps its service and start, its severity never falls, and it is never NEW or unresolved again; an approval keeps its action, hash and expiry, its decision once decided, and everything once executed. |
| Outcomes.DecidesExactly | apps/api/app/services/approval_service.py:86-106 | In a reachable store a decision is accepted exactly for a pending approval at most 1,800,000,000 microseconds after its request, up to and including that moment. |
| Outcomes.ExecutesExactly | apps/api/app/services/remediation_service.py:27-53 | In a reachable store an execution is committed exactly for an approved rollback that was not executed before, with recovery confirmed; the time plays no part. |
| Outcomes.ExecutionObeysPolicyExactly | docs/SAFETY.md:45-56 | A committed execution obeys the documented policy exactly up to thirty minutes after the request. |
| Example.ResolvedAndReopened | apps/api/app/services/remediation_service.py:30-45 | In every configuration a history of eight requests, from the first alert on, commits the execution of an approval that the policy calls expired, resolves the incident, and then moves it back to NEEDS_APPROVAL. |
| Outcomes.TerminalStatusesMoveExactly | apps/api/app/models/enums.py:17-24 | In every history an incident in a terminal status changes it exactly when a first approval is requested for one of its recommendations, a decidable or executable approval of it is decided or executed, or an investigation that wants an approval gets an acceptable answer; and then to the status of that step. |
| Outcomes.InvestigationMovesExactly | apps/api/app/services/orchestrator_service.py:240-254 | An investigation moves a terminal incident exactly when no source raises, the answer is accepted and presentable, and an approval is wanted; and it never moves another incident. |
| Soundness.EmptyIsSound | apps/api/app/models/investigation.py:30-235 | The empty store satisfies the invariant. |
| System.StepPreserves | apps/api/app/api/v1/approvals.py:28-100 | Every request keeps the whole-store invariant, whatever the outside world contributes. |
| System.ReachableIsSound | apps/api/app/api/v1/approvals.py:28-100 | The invariant holds at every moment of every history. |
| Store.Session.Handle | apps/api/app/api/v1/approvals.py:28-100 | Serving a request on the session commits exactly what the state machine says, drops what was only flushed by a request that raised, and keeps the invariant. |
| Store.Session.CommitIf | apps/api/app/api/v1/approvals.py:91-100 | A route commits what its service flushed, or leaves the committed tables as they were. |
| ApprovalSteps.RequestCases | apps/api/app/services/approval_service.py:42-53 | A placed recommendation is never refused; if it has an approval, that one is returned and nothing is written. |
| Outcomes.RequestsAreAnsweredExactly | apps/api/app/services/approval_service.py:42-83 | In every history: an unknown recommendation is refused, an existing approval is returned with nothing written, and otherwise a pending approval of exactly the recommended action is stored that expires 1,800,000,000 microseconds later, and the incident waits for it. |
| ApprovalSteps.RequestPreserves | apps/api/app/services/approval_service.py:42-83 | Requesting an approval keeps the invariant. |
| ApprovalSteps.DecidePreserves | apps/api/app/services/approval_service.py:86-129 | Deciding an approval keeps the invariant. |
| ApprovalSteps.ExecutePreserves | apps/api/app/services/remediation_service.py:27-93 | Executing an approval keeps the invariant. |
| Agent.GraphEnds | apps/worker/agent/graph.py:16-59 | For any provider answer or exception the graph ends in one of two states: completed with a grounded, sufficiently confident, allow-listed proposal that needs approval, exactly for an acceptable answer; otherwise insufficient evidence with nothing proposed. |
| Agent.ChecksFilterAnswers | apps/worker/agent/nodes/validate_grounding.py:15-59 | The checks after retrieval let through exactly the acceptable answers, and change neither evidence nor runbooks. |
| Agent.ProposalIsAllowListed | apps/worker/agent/nodes/safety_check.py:9-36 | With a hypothesis selected, the last two nodes never fail and end in an allow-listed recommendation that needs approval. |
| Agent.ProposalFollowsHint | apps/worker/agent/nodes/propose_actions.py:33-58 | The proposed action is the provider's own if it is one of the four allowed, with its parameters if it gave any and its rationale; otherwise a rollback, with the incident as its only parameter. |
| Agent.GraphKeepsEvidence | apps/worker/agent/nodes/retrieve_runbooks.py:26-76 | Through every node the evidence is the collected records followed by the pending runbook records, and the runbook list grows by the same records. |
| Agent.RetrievalIsExact | apps/worker/agent/nodes/retrieve_runbooks.py:30-70 | After retrieval every match is evidence, and each record added is the first to stand for its runbook. |
| Agent.CompletedReachesThresholdExactly | apps/worker/agent/nodes/generate_hypotheses.py:116-117 | The confidence of a completed run is a number at or above the threshold exactly when the provider's confidence is not NaN. |
| Agent.NaNConfidenceCompletes | apps/worker/agent/nodes/generate_hypotheses.py:116-117 | An answer with confidence NaN completes the graph. |
| GraphRun.Graph.RetrieveRunbooksNode | apps/worker/agent/nodes/retrieve_runbooks.py:26-76 | The loop extends both lists by one record for each match that is not evidence yet. |
| GraphRun.Graph.SafetyCheckNode | apps/worker/agent/nodes/safety_check.py:9-36 | Marks the selected recommendation as needing approval, or drops it and fails. |
| GraphRun.Graph.Invoke | apps/worker/agent/graph.py:25-59 | The nodes in their order, with the one conditional edge, compute the specified final state. |
| Orchestrator.AcceptedCitationsAreRows | apps/api/app/services/investigation_service.py:112-121 | Citation texts accepted in memory parse to ids of evidence rows of the run. |
| Orchestrator.RunbooksAreStored | apps/api/app/services/orchestrator_service.py:159-177 | Storing the pending runbook records adds exactly their rows, to this run, and changes no other row. |
| InvestigationSteps.GroundingRefinesCitationCheck | apps/worker/agent/nodes/validate_grounding.py:38-53 | Whenever the in-memory grounding check accepts, the database check on the citations accepts too, after the runbooks are stored. |
| InvestigationSteps.AcceptedPayloads | apps/api/app/services/orchestrator_service.py:210-238 | For an accepted answer the stored payloads pass validation exactly when its texts and confidence are presentable. |
| InvestigationSteps.ConcludePreserves | apps/api/app/services/orchestrator_service.py:89-286 | After collection the request fails exactly on an accepted answer that is not presentable, then leaving what collection committed; otherwise it keeps the invariant. |
| InvestigationSteps.ConcludeAnswers | apps/api/app/services/orchestrator_service.py:179-286 | After collection, the answer holds a stored hypothesis and recommendation exactly when the graph accepts, with the root cause, summary, confidence, action and parameters of the provider's answer, and an approval exactly if one was wanted as well; otherwise it holds nothing. |
| Guarantees.InvestigationEnds | apps/api/app/services/orchestrator_service.py:51-286 | From any reachable store: refused exactly for an unknown incident; crashed exactly when a source raises or an accepted answer is not presentable, leaving what collection committed; otherwise with hypothesis and recommendation exactly on an accepted answer, stored with the texts, action and parameters answered and a confidence that reaches the threshold, and with an approval exactly if one was wanted. |
| InvestigationSteps.InvestigatePreserves | apps/api/app/services/orchestrator_service.py:51-286 | Whatever sources and provider do, what an investigation commits is sound. |
| Store.Session.InvestigateIncident | apps/api/app/services/orchestrator_service.py:51-286 | Collection, graph and storage leave the specified tables and answer; a crash leaves what collection committed. |
| Store.Session.Conclude | apps/api/app/services/orchestrator_service.py:85-286 | Taking over the run, invoking the graph and storing its outcome agree with the specification. |
| Store.Session.StoreOutcome | apps/api/app/services/orchestrator_service.py:159-205 | The loop stores each runbook record that has no row yet, and then the findings or the lack of them. |
| Store.Session.StoreFindings | apps/api/app/services/orchestrator_service.py:207-254 | Hypothesis, recommendation, run and approval are written in this order, stopping at the first refusal. |
| Collection.WindowBounds | apps/api/app/services/collection_service.py:52-59 | The window ends when asked, or now; it starts no earlier than the incident, is no wider than the lookback, and leaves out no moment that lies in both; it is backwards exactly when it ends before the incident. |
| Collection.CollectedWindowIsExact | apps/api/app/services/collection_service.py:52-59 | The start and end that a collection answers are those of that window, which is not backwards if any source was queried. |
| Collection.CollectionIsConserved | apps/api/app/services/collection_service.py:128-200 | After any prefix of any sources: one tool call per source in order, evidence matching successes one to one, no row of an earlier source lost or changed. |
| Collection.RaisedExactly | apps/api/app/services/collection_service.py:128-200 | The pass ends early exactly when some source raises something other than a connector error. |
| InvestigationSteps.CollectionConserves | apps/api/app/services/collection_service.py:128-220 | The ledger at the end of a pass on a sound store; the run is COMPLETED exactly when it has evidence. |
| InvestigationSteps.InterruptedExactly | apps/api/app/services/collection_service.py:52-69 | A collection is interrupted exactly when a source raises or a non-empty list of sources meets a backwards window. |
| InvestigationSteps.InterruptedLeavesRunning | apps/api/app/services/collection_service.py:60-200 | An interrupted collection leaves its run RUNNING and never finished, with the rows of exactly the sources before the first one that raised. |
| Example.BackwardsWindowNeverEnds | apps/api/app/services/collection_service.py:52-69 | In every configuration there is a history in which a window that ends before the incident leaves such a run, with nothing read. |
| InvestigationSteps.CollectPreserves | apps/api/app/services/collection_service.py:39-220 | A collection keeps the invariant, whether it ends or is interrupted. |
| Guarantees.CollectionStarts | apps/api/app/services/collection_service.py:45-50 | On a sound store a collection is refused exactly for an unknown incident. |
| Store.Session.StartCollection | apps/api/app/services/collection_service.py:60-69 | Commits a running run, and a new incident starts collecting. |
| Store.Session.QuerySource | apps/api/app/services/collection_service.py:128-200 | One source: tool call and evidence committed, or a failed call committed after a rollback, or nothing when it raises. |
| Store.Session.CollectIncidentEvidence | apps/api/app/services/collection_service.py:39-220 | The loop with its commits and rollbacks leaves the specified tables and answer. |
| Analysis.AnalyzeRunPreserves | apps/api/app/services/analysis_service.py:63-189 | Analysing a run of the incident never fails on a sound store, and keeps it sound. |
| Analysis.AnalyzePreserves | apps/api/app/services/analysis_service.py:40-189 | The whole analysis request keeps the invariant. |
| Analysis.RulesAreGrounded | apps/api/app/services/analysis_service.py:95-161 | A hypothesis the rules store cites exactly the run's deployments, metrics and logs, at least two with a deployment among them, and its confidence lies between 0.75 and 0.95 and is no less than requested. |
| RuleAnswers.AnalysisAnswersExactly | apps/api/app/services/analysis_service.py:45-189 | On a sound store: which run is taken, the requested one or one created last; a hypothesis and a rollback are stored and the run completes exactly with a deployment, a metric or log or mentioned error, two rows and confidence enough; root cause, confidence, citations, action and parameters of what is stored; otherwise insufficient with nothing stored. |
| Guarantees.EveryAnalysisIsExact | apps/api/app/services/analysis_service.py:40-189 | The exact answer of an analysis in every history. |
| Store.Session.AnalyzeIncident | apps/api/app/services/analysis_service.py:40-189 | Each branch leaves the specified tables and answer; when each is taken is stated in rows by RuleAnswers.AnalysisAnswersExactly. |
| Store.Session.TakeOver | apps/api/app/services/analysis_service.py:87-93 | The run is running again with its first start time, and a new or collecting incident is being analysed. |
| Retry.HttpConnector.Connect | packages/connectors/http.py:12-29 | A connector is made exactly for an address that is not blank, a positive timeout and zero to three retries. |
| Retry.HttpConnector.GetJson | packages/connectors/http.py:31-80 | Makes exactly the requests the specification allows, and answers what the last of them means. |
| Retry.AttemptsStopAtFirstDecisive | packages/connectors/http.py:39-76 | The number of requests is the one position where either a response is not transient or the retries are used up, all responses before it being transient. |
| Retry.SucceedsExactly | packages/connectors/http.py:53-68 | A query succeeds exactly when an object comes with a status from 200 to 299 within the allowed requests, after timeouts, lost connections and statuses from 500 on only. |
| Retry.QueryEndsExactly | packages/connectors/http.py:39-80 | Where a query ends and what it answers, in terms of statuses and bodies; the number of requests is exactly that. |
| Retry.TransientExactly | packages/connectors/http.py:42-74 | Timeouts, lost connections and statuses from 500 on are asked for again, and nothing else is. |
| Retry.TrailingSlashesDropped | packages/connectors/http.py:26 | Exactly the slashes at the end of the address are dropped. |
| Retry.MoreRetriesKeepTheOutcome | packages/connectors/http.py:69-80 | More retries change the outcome and the number of requests only of a query that ran out of them. |
| Escaping.EscapeIsPerCharacter | packages/connectors/loki.py:74 | The two successive replacements equal one escape per character. |
| Escaping.ReadLabelInvertsEscape | packages/connectors/loki.py:73-75 | A label reader gets back the name and stops at the intended quote, exactly for names without line breaks. |
| Escaping.LogQueryNamesTheService | packages/connectors/loki.py:73-75 | The log query selects exactly the named service and keeps its filter. |
| Escaping.RateQueryNamesTheServiceTwice | packages/connectors/prometheus.py:67-73 | Both selectors of the error rate query name the service; with a line break in the name already the first one cannot be read. |
| Escaping.EscapeIsInjective | packages/connectors/prometheus.py:69 | Different names are escaped differently. |
| Ranking.ScoreIsMonotone | apps/worker/agent/runbooks.py:144-170 | More query words never lower a document's score. |
| Ranking.WordAdds | apps/worker/agent/runbooks.py:154-170 | A further query word adds 1.5, 1.0, 0.8 and 0.2 for the type, the title, each symptom and the body that contain it. |
| Ranking.ServiceAloneScores | apps/worker/agent/runbooks.py:147-152 | Without query words a document scores 2.0 for the same service, 1.0 for one whose name contains the requested one, and nothing otherwise. |
| Ranking.SortedIsStableSort | apps/worker/agent/runbooks.py:175 | Sorting orders by descending score and keeps documents of equal score in index order. |
| Ranking.StableSortIsUnique | apps/worker/agent/runbooks.py:175 | Two descending lists with the same documents, in the same order, for each score are equal. |
| Ranking.HitsAreScored | apps/worker/agent/runbooks.py:144-173 | Exactly the documents with a positive score are candidates, each with its own score. |
| Ranking.NothingBetterIsOmitted | apps/worker/agent/runbooks.py:131-176 | At most k documents are returned, each with its positive score; if a scored document is left out, k are returned and none of them scores less. |
| Ranking.RunbookRetriever.Retrieve | apps/worker/agent/runbooks.py:131-176 | Loading, scoring, sorting and cutting compute the specified list, also for a negative k. |
| Ranking.RunbookRetriever.ScoreOf | apps/worker/agent/runbooks.py:144-170 | The accumulated score is the specified one. |

## Left out

- Concurrency: each request is one atomic step. The source takes no row locks, and nothing is claimed about interleaved requests.
- Clock: one request reads the clock once; the source reads it several times in a request, and takes microseconds that differ.
- Identifiers: random UUIDs are fresh natural numbers, so the order of ids used to break ties is an arbitrary choice (`Schema.RowChoice`), and only one spelling of an id parses.
- Store.Session: the tables are one record that the methods reassign field by field; the object-relational mapper's identity map, expiry and autoflush are not modelled.
- Json.CanonicalIsInjective: numbers are integers; floats, their NaN and infinity spellings, and unpaired surrogates are not JSON values of the model.
- SHA-256: any function from text to text; freedom from collisions is a hypothesis of the theorems that need it.
- Texts: messages, titles, descriptions, risk levels, payload bodies and event metadata are not stored; `Agent.DefaultRationale` and the drafts of `Analysis` carry shortened wording.
- Arithmetic: confidences of the rule-based analysis are reals, runbook scores are integer tenths; rounding of floats is not modelled.
- Request validation: requests arrive already validated, except where the webhook builds one itself and where the orchestrator validates what the provider wrote.
- Correlating signals, prompts and providers: one arbitrary answer or exception stands for them.
- Telemetry sources: a query succeeds, fails as a connector error, or raises; checks on the shape of a payload are part of that outcome.
- Guarantees.RedeliveryIsIdempotent: speaks of payloads whose firing alerts carry fingerprints; an alert without one has no external id, and the source stores it again.
- Evidence order: evidence is read back in the order it was collected; equal collection times are not reordered by id.
- Escaping.ReadLabel: knows the two escapes that are written, and refuses all others that a query language may have.
- Ranking.Score: documents come as parsed word sets; YAML, regular expressions and lower-casing outside ASCII are left out, here and in `Webhook.SeverityOf`.
- Listing and reading endpoints, the simulator, deployment records, metrics and the demo service: they add no rule to the store.
