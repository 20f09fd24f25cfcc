/**
  Histories that reach what the documentation rules out: an execution after its approval has expired, a
  resolved incident that waits for approval again, an ingestion that fails, and a run that never ends.
 */
module Example {
  import opened Base
  import opened Schema
  import opened Ingestion
  import opened Investigation
  import opened Gate
  import opened Collection
  import opened CaseSteps
  import opened Analysis
  import opened Provenance
  import opened ApprovalSteps
  import opened System
  import opened Guarantees
  import opened InvestigationSteps
  import opened Correlation
  import opened Soundness
  import opened Outcomes

  const ALERT := AlertRequest("checkout", "high_latency", High, 0, None)
  const SOURCES := [Source(Deployment, "postgresql", Fetched), Source(Metric, "prometheus", Fetched)]
  const LATE := APPROVAL_TTL + 1

  /** Both proposals of one run; the first is approved and executed late, then approval is asked for the second. */
  function Requests(choose: RowChoice): seq<Step> {
    [PostAlert(ALERT, choose),
     PostCollect(2, CollectRequest(3600, None), SOURCES),
     PostAnalyze(2, ANALYZE, false, choose),
     PostAnalyze(2, ANALYZE, false, choose),
     PostApproval(9, choose),
     PostDecision(12, ApprovalStatus.Approved),
     PostExecution(12, true),
     PostApproval(11, choose)]
  }

  const ANALYZE := AnalyzeRequest(Some(3), 0.0)

  /** The tables after the first alert. */
  function OpenedWith(externalId: Option<string>): Tables {
    OpenIncident(EMPTY.(services := map["checkout" := 0], nextId := 1), Alert(externalId, 0, "high_latency", High, 0))
  }

  function Opened(): Tables {
    OpenedWith(None)
  }

  lemma AlertOpens(cfg: Config, externalId: Option<string>, choose: RowChoice)
    ensures Committed(cfg, EMPTY, PostAlert(ALERT.(externalId := externalId), choose), 0) == OpenedWith(externalId)
  {
    var t := EMPTY.(services := map["checkout" := 0], nextId := 1);
    assert GetOrCreateService(EMPTY, "checkout") == (t, 0);
    assert LatestCorrelated(t, 0, "high_latency", 0, cfg.window) == {};
    hide LatestCorrelated;
  }

  /** The tables after collection, which took ids 3 to 7. */
  function WithEvidence(): Tables {
    var t := Opened();
    t.(incidents := map[2 := Incident(0, High, CollectingEvidence, 0, None)],
       runs := map[3 := AgentRun(2, RunCompleted, 0, Some(0), Some(0))],
       toolCalls := map[4 := ToolCall(3, Deployment, true), 6 := ToolCall(3, Metric, true)],
       evidence := map[5 := Evidence(2, 3, Some(4), Deployment, "postgresql"),
                       7 := Evidence(2, 3, Some(6), Metric, "prometheus")],
       events := t.events + [Event(2, AgentRunCreated(3)), Event(2, EvidenceCollected(3, 5)),
                             Event(2, EvidenceCollected(3, 7))],
       nextId := 8)
  }

  function Started(): Tables {
    var t := Opened();
    t.(incidents := map[2 := Incident(0, High, CollectingEvidence, 0, None)],
       runs := map[3 := AgentRun(2, RunRunning, 0, Some(0), None)],
       events := t.events + [Event(2, AgentRunCreated(3))], nextId := 4)
  }

  lemma RunStarts()
    ensures StartRun(Opened(), 2, 0) == Started()
  {}

  function AfterFirst(): Pass {
    Pass(Started().(toolCalls := map[4 := ToolCall(3, Deployment, true)],
                    evidence := map[5 := Evidence(2, 3, Some(4), Deployment, "postgresql")],
                    events := Started().events + [Event(2, EvidenceCollected(3, 5))], nextId := 6),
         [SourceRead(Deployment, "postgresql", true, 4, Some(5), None)], [5], false)
  }

  lemma FirstSource()
    ensures CollectSource(Pass(Started(), [], [], false), 3, SOURCES[0]) == AfterFirst()
  {}

  lemma SecondSource(p: Pass)
    requires 3 in p.tables.runs && p.tables.runs[3].incident == 2 && p.tables.nextId == 6 && !p.raised
    ensures CollectSource(p, 3, SOURCES[1]) ==
      Pass(p.tables.(toolCalls := p.tables.toolCalls[6 := ToolCall(3, Metric, true)],
                     evidence := p.tables.evidence[7 := Evidence(2, 3, Some(6), Metric, "prometheus")],
                     events := p.tables.events + [Event(2, EvidenceCollected(3, 7))], nextId := 8),
           p.results + [SourceRead(Metric, "prometheus", true, 6, Some(7), None)], p.evidence + [7], false)
  {}

  lemma BothSources() returns (p: Pass)
    ensures p == CollectSources(Started(), 3, SOURCES, 2) && !p.raised && p.evidence == [5, 7]
    ensures p.tables == WithEvidence().(runs := Started().runs)
  {
    FirstSource();
    SecondSource(AfterFirst());
    p := CollectSource(AfterFirst(), 3, SOURCES[1]);
    hide CollectSource;
    assert CollectSources(Started(), 3, SOURCES, 0) == Pass(Started(), [], [], false);
    assert CollectSources(Started(), 3, SOURCES, 1) == AfterFirst();
  }

  lemma ServiceIsKnown()
    ensures ServiceExists(Opened(), 0) && Opened().incidents == map[2 := Incident(0, High, New, 0, None)]
    ensures Opened().nextId == 3
  {
    assert Opened().services["checkout"] == 0;
  }

  lemma RunFinishes(t: Tables)
    requires t == WithEvidence().(runs := Started().runs)
    ensures FinishRun(t, 3, RunCompleted, 0) == WithEvidence()
  {}

  lemma CollectionEnds()
    ensures var result := CollectIncidentEvidence(Opened(), 2, CollectRequest(3600, None), SOURCES, 0);
      result.Collected? && result.tables == WithEvidence()
  {
    hide CollectSources, StartRun, Opened, Started, WithEvidence, ServiceExists, FinishRun;
    RunStarts();
    ServiceIsKnown();
    var p := BothSources();
    RunFinishes(p.tables);
    assert QueriedAll(SOURCES, 0, 0) == SOURCES;
  }

  lemma SourcesAreRead(cfg: Config)
    ensures Committed(cfg, Opened(), PostCollect(2, CollectRequest(3600, None), SOURCES), 0) == WithEvidence()
  {
    hide Opened, WithEvidence, CollectIncidentEvidence;
    CollectionEnds();
  }

  /******* Analysis *******/

  const EVIDENCE := map[5 := Evidence(2, 3, Some(4), Deployment, "postgresql"),
                        7 := Evidence(2, 3, Some(6), Metric, "prometheus")]

  /** Incident 2 in the given status, with run 3 and what it collected. */
  ghost predicate CaseIs(t: Tables, status: IncidentStatus, resolvedAt: Option<int>) {
    && t.incidents == map[2 := Incident(0, High, status, 0, resolvedAt)]
    && 3 in t.runs && t.runs[3].incident == 2
    && t.evidence == EVIDENCE
  }

  const DRAFT := HypothesisCreate("deployment_regression", "deployment", Finite(0.75), {5, 7})

  lemma KindsOfEvidence(t: Tables)
    requires t.evidence == EVIDENCE
    ensures OfKind(t, 3, Deployment) == {5} && OfKind(t, 3, Metric) == {7} && OfKind(t, 3, Log) == {}
    ensures EvidenceOfRun(t, 3) == {5, 7}
  {}

  lemma EvidenceSupports(t: Tables)
    requires t.evidence == EVIDENCE
    ensures Supported(t, 3, false, 0.0) && RegressionHypothesis(t, 3) == DRAFT && EvidenceOfRun(t, 3) == {5, 7}
  {
    KindsOfEvidence(t);
    hide OfKind, EvidenceOfRun;
    assert CitedEvidence(t, 3) == {5, 7};
  }

  lemma RunIsTaken(t: Tables, status: IncidentStatus)
    requires CaseIs(t, status, None) && (status == CollectingEvidence || status == Analyzing)
    ensures var taken := MarkAnalyzing(TakeRun(t, 3, 0), 2);
      CaseIs(taken, Analyzing, None) && taken.nextId == t.nextId && taken.approvals == t.approvals &&
      taken.recommendations == t.recommendations
  {}

  lemma DraftFits(t: Tables)
    requires CaseIs(t, Analyzing, None)
    ensures ValidHypothesis(DRAFT) && CitationsInRun(t, 3, {5, 7})
  {
    EvidenceSupports(t);
    DraftIsValid(t, 3);
    hide ValidHypothesis, RegressionHypothesis, Supported, EvidenceOfRun;
  }

  lemma HypothesisIsRecorded(t: Tables)
    requires CaseIs(t, Analyzing, None)
    ensures ValidHypothesis(DRAFT)
    ensures var made := RecordHypothesis(t, 3, DRAFT);
      made.Done? && made.value == t.nextId && CaseIs(made.tables, Analyzing, None) &&
      made.tables.nextId == t.nextId + 1 && made.tables.approvals == t.approvals &&
      made.tables.recommendations == t.recommendations && t.nextId in made.tables.hypotheses &&
      made.tables.hypotheses[t.nextId].run == 3 && Citation(t.nextId, 5, 3) in made.tables.citations
  {
    DraftFits(t);
    hide ValidHypothesis, CitationsInRun;
  }

  lemma ProposalIsRecorded(u: Tables, h: Id)
    requires CaseIs(u, Analyzing, None) && h in u.hypotheses && u.hypotheses[h].run == 3
    requires Citation(h, 5, 3) in u.citations && ValidRecommendation(RollbackProposal(2, h))
    ensures var made := RecordRecommendation(u, 3, RollbackProposal(2, h));
      made.Done? && CaseIs(FinishRun(made.tables, 3, RunCompleted, 0), Analyzing, None) &&
      FinishRun(made.tables, 3, RunCompleted, 0) == made.tables.(
        runs := FinishRun(made.tables, 3, RunCompleted, 0).runs) &&
      made.tables.nextId == u.nextId + 1 && made.tables.approvals == u.approvals &&
      made.tables.recommendations ==
        u.recommendations[u.nextId := Recommendation(3, h, ROLLBACK, RollbackProposal(2, h).parameters)]
  {
    hide ValidRecommendation;
  }

  /** Each analysis of run 3 adds a proposal of a rollback. */
  lemma AnalysisAdds(t: Tables, status: IncidentStatus, choose: RowChoice)
    requires CaseIs(t, status, None) && (status == CollectingEvidence || status == Analyzing)
    ensures var result := AnalyzeIncident(t, 2, ANALYZE, false, 0, choose);
      result.Done? && CaseIs(result.tables, Analyzing, None) && result.tables.nextId == t.nextId + 2 &&
      result.tables.approvals == t.approvals && result.tables.recommendations == t.recommendations[
        t.nextId + 1 := Recommendation(3, t.nextId, ROLLBACK, RollbackProposal(2, t.nextId).parameters)]
  {
    hide MarkAnalyzing, Supported, RegressionHypothesis, ValidHypothesis, ValidRecommendation, RecordHypothesis,
      RecordRecommendation, RollbackProposal, FinishRun, EvidenceOfRun;
    var taken := MarkAnalyzing(TakeRun(t, 3, 0), 2);
    EvidenceSupports(t);
    RunIsTaken(t, status);
    EvidenceSupports(taken);
    HypothesisIsRecorded(taken);
    ProposalIsValid(2, taken.nextId);
    ProposalIsRecorded(RecordHypothesis(taken, 3, DRAFT).tables, taken.nextId);
  }

  lemma CollectedCase()
    ensures var t := WithEvidence();
      CaseIs(t, CollectingEvidence, None) && t.nextId == 8 && t.approvals == map[] && t.recommendations == map[]
  {}

  /** What both analyses leave: proposals 9 and 11, and no approval. */
  ghost predicate Proposed(t: Tables) {
    && CaseIs(t, Analyzing, None) && t.nextId == 12 && t.approvals == map[]
    && 9 in t.recommendations && t.recommendations[9].run == 3 && t.recommendations[9].action == ROLLBACK
    && 11 in t.recommendations && t.recommendations[11].run == 3 && t.recommendations[11].action == ROLLBACK
  }

  lemma BothAreProposed(cfg: Config, choose: RowChoice) returns (t3: Tables, t4: Tables)
    ensures t3 == Committed(cfg, WithEvidence(), PostAnalyze(2, ANALYZE, false, choose), 0)
    ensures t4 == Committed(cfg, t3, PostAnalyze(2, ANALYZE, false, choose), 0) && Proposed(t4)
  {
    hide WithEvidence, AnalyzeIncident, RollbackProposal, CaseIs;
    CollectedCase();
    t3 := Committed(cfg, WithEvidence(), PostAnalyze(2, ANALYZE, false, choose), 0);
    t4 := Committed(cfg, t3, PostAnalyze(2, ANALYZE, false, choose), 0);
    AnalysisAdds(WithEvidence(), CollectingEvidence, choose);
    AnalysisAdds(t3, Analyzing, choose);
  }

  /******* Approval *******/

  /** Proposal 11 is still there, and only proposal 9 has an approval, row 12. */
  ghost predicate Approving(t: Tables, hash: Hash, row: Approval, status: IncidentStatus) {
    && t.approvals == map[12 := row] && row.recommendation == 9 && row.run == 3 && row.action == ROLLBACK
    && row.hash == ActionDigest(hash, row.action, row.parameters, row.run)
    && row.createdAt == 0 && row.expiresAt == APPROVAL_TTL && LifeFits(row, 0)
    && 2 in t.incidents && t.incidents[2].status == status && 3 in t.runs && t.runs[3].incident == 2
    && 11 in t.recommendations && t.recommendations[11].run == 3 && t.recommendations[11].action == ROLLBACK
  }

  lemma ApprovalIsRequested(t: Tables, hash: Hash, choose: RowChoice)
    requires Proposed(t)
    ensures var made := RequestApproval(t, hash, 9, 0, choose);
      made.Done? && Approving(made.tables, hash, PendingRow(hash, 9, t.recommendations[9], 0), NeedsApproval)
  {
    hide RequestApproval, ActionDigest;
    assert NewRequest(t, 9);
    NewRequestMoves(t, hash, 9, 0, choose);
  }

  lemma ApprovalIsDecided(t: Tables, hash: Hash, row: Approval)
    requires Approving(t, hash, row, NeedsApproval) && row.status == ApprovalStatus.Pending
    ensures var made := DecideApproval(t, hash, 12, ApprovalStatus.Approved, 0);
      made.Done? &&
      Approving(made.tables, hash, DecidedRow(row, ApprovalStatus.Approved, 0), IncidentStatus.Approved)
  {
    hide DecideApproval, ActionDigest;
    DecisionGuards(t, hash, 12, ApprovalStatus.Approved, 0);
    DecisionMoves(t, hash, 12, ApprovalStatus.Approved, 0, 2, IncidentStatus.Approved);
  }

  lemma RollbackIsExecuted(t: Tables, hash: Hash, row: Approval)
    requires Approving(t, hash, row, IncidentStatus.Approved)
    requires row.status == ApprovalStatus.Approved && row.executedAt.None?
    ensures var made := ExecuteApproval(t, hash, 12, true, LATE);
      made.Executed? && 2 in made.tables.incidents && made.tables.incidents[2].status == Resolved &&
      NewRequest(made.tables, 11) && made.tables.recommendations[11].run == 3 && made.tables.runs[3].incident == 2
  {
    ExecutionGuards(t, hash, row);
    hide ExecuteApproval, ActionDigest;
    ExecutionMoves(t, hash, 12, LATE);
  }

  lemma ExecutionGuards(t: Tables, hash: Hash, row: Approval)
    requires Approving(t, hash, row, IncidentStatus.Approved)
    requires row.status == ApprovalStatus.Approved && row.executedAt.None?
    ensures ExecuteApproval(t, hash, 12, true, LATE).Executed?
  {
    hide ActionDigest;
  }

  /******* The histories *******/

  /** The last four requests, from proposals on. */
  lemma Finale(cfg: Config, t: Tables, choose: RowChoice) returns (t5: Tables, t6: Tables, t7: Tables, row: Approval)
    requires Proposed(t)
    ensures t5 == Committed(cfg, t, PostApproval(9, choose), 0)
    ensures t6 == Committed(cfg, t5, PostDecision(12, ApprovalStatus.Approved), 0)
    ensures t7 == Committed(cfg, t6, PostExecution(12, true), LATE)
    ensures t6.approvals == map[12 := row] && row.run == 3 && row.action == ROLLBACK
    ensures row.status == ApprovalStatus.Approved && row.expiresAt < LATE
    ensures ExecuteApproval(t6, cfg.hash, 12, true, LATE).Executed?
    ensures 2 in t7.incidents && t7.incidents[2].status == Resolved && NewRequest(t7, 11)
    ensures t7.runs[t7.recommendations[11].run].incident == 2
  {
    hide RequestApproval, DecideApproval, ExecuteApproval, NewRequest, ActionDigest, CaseIs, Approving;
    t5 := Committed(cfg, t, PostApproval(9, choose), 0);
    ApprovalIsRequested(t, cfg.hash, choose);
    var pending := PendingRow(cfg.hash, 9, t.recommendations[9], 0);
    t6 := Committed(cfg, t5, PostDecision(12, ApprovalStatus.Approved), 0);
    ApprovalIsDecided(t5, cfg.hash, pending);
    row := DecidedRow(pending, ApprovalStatus.Approved, 0);
    t7 := Committed(cfg, t6, PostExecution(12, true), LATE);
    RollbackIsExecuted(t6, cfg.hash, row);
    ApprovedRow(t6, cfg.hash, row);
  }

  lemma ApprovedRow(t: Tables, hash: Hash, row: Approval)
    requires Approving(t, hash, row, IncidentStatus.Approved)
    ensures t.approvals == map[12 := row] && row.run == 3 && row.action == ROLLBACK && row.expiresAt < LATE
  {
    hide ActionDigest, LifeFits;
  }

  /**
    In every configuration there is a history in which an execution is committed that the policy refuses as
    expired, and in which the incident it resolves then waits for approval again.
   */
  lemma ResolvedAndReopened(cfg: Config, choose: RowChoice) returns (worlds: seq<World>)
    ensures IsRun(cfg, worlds, Requests(choose)) && Executes(cfg, worlds, Requests(choose), 6, 12)
    ensures 12 in worlds[6].db.approvals &&
      var a := worlds[6].db.approvals[12];
      VerifyBackendApproval(cfg.hash, Some(a), a.action, a.parameters, a.run, worlds[7].clock) == Some(PastExpiry)
    ensures 2 in worlds[7].db.incidents && worlds[7].db.incidents[2].status == Resolved
    ensures 2 in worlds[8].db.incidents && worlds[8].db.incidents[2].status == NeedsApproval
  {
    var steps := Requests(choose);
    hide Committed, Opened, OpenedWith, WithEvidence, Proposed, ExecuteApproval, NewRequest, ActionDigest;
    AlertOpens(cfg, None, choose);
    SourcesAreRead(cfg);
    var t3, t4 := BothAreProposed(cfg, choose);
    var t5, t6, t7, row := Finale(cfg, t4, choose);
    var t8 := Committed(cfg, t7, steps[7], LATE);
    worlds := [World(EMPTY, 0), World(Opened(), 0), World(WithEvidence(), 0), World(t3, 0), World(t4, 0),
               World(t5, 0), World(t6, 0), World(t7, LATE), World(t8, LATE)];
    OpenedIs();
    hide IsRun;
    TerminalStatusesMoveExactly(cfg, worlds, steps, 7, 2);
  }

  lemma OpenedIs()
    ensures Opened() == OpenedWith(None) && ALERT.(externalId := None) == ALERT
  {}

  /** In every configuration an alert with an empty external id makes the next one with it fail. */
  lemma RepeatedEmptyIdFails(cfg: Config, choose: RowChoice) returns (worlds: seq<World>, steps: seq<Step>)
    ensures IsRun(cfg, worlds, steps) && |steps| == 1
    ensures var req := ALERT.(externalId := Some(""));
      steps[0] == PostAlert(req, choose) && IngestAlert(worlds[1].db, req, cfg.window, choose).reply.Aborted?
  {
    var req := ALERT.(externalId := Some(""));
    hide Committed, OpenedWith, IngestAlert;
    AlertOpens(cfg, Some(""), choose);
    steps := [PostAlert(req, choose)];
    worlds := [World(EMPTY, 0), World(OpenedWith(Some("")), 0)];
    assert Next(cfg, worlds[0], steps[0], worlds[1]);
    assert IsRun(cfg, worlds, steps);
    EmptyIdTaken();
    AlertsArePartitionedAlways(cfg, worlds, steps, 1, 0, req, choose);
  }

  lemma EmptyIdTaken()
    ensures ExternalIdTaken(OpenedWith(Some("")), Some(""))
  {
    assert 1 in OpenedWith(Some("")).alerts;
  }

  lemma WindowIsBackwards()
    ensures var req := CollectRequest(3600, Some(-1));
      CollectIncidentEvidence(Opened(), 2, req, SOURCES, 0).Interrupted? && 2 in Opened().incidents &&
      Window(Opened().incidents[2].startedAt, req, 0) == (0, -1) && Opened().nextId == 3
  {
    ServiceIsKnown();
    hide Opened, CollectIncidentEvidence;
    assert KnownService(Opened(), 0);
    assert SOURCES[0].attempt.Fetched?;
    assert SomeSourceRaises(Opened(), 2, SOURCES, -1);
    InterruptedExactly(Opened(), 2, CollectRequest(3600, Some(-1)), SOURCES, 0);
  }

  lemma BackwardsWindowHistory(cfg: Config, choose: RowChoice) returns (worlds: seq<World>, steps: seq<Step>)
    ensures IsRun(cfg, worlds, steps) && |steps| == 2 && worlds[1] == World(Opened(), 0) && worlds[2].clock == 0
    ensures steps[1] == PostCollect(2, CollectRequest(3600, Some(-1)), SOURCES)
  {
    hide Opened, OpenedWith, Committed;
    steps := [PostAlert(ALERT, choose), PostCollect(2, CollectRequest(3600, Some(-1)), SOURCES)];
    AlertOpens(cfg, None, choose);
    OpenedIs();
    worlds := [World(EMPTY, 0), World(Opened(), 0), World(Committed(cfg, Opened(), steps[1], 0), 0)];
    assert Next(cfg, worlds[0], steps[0], worlds[1]) && Next(cfg, worlds[1], steps[1], worlds[2]);
  }

  /** In every configuration a window that ends before the incident leaves a run running, with nothing read. */
  lemma BackwardsWindowNeverEnds(cfg: Config, choose: RowChoice) returns (worlds: seq<World>, steps: seq<Step>)
    ensures IsRun(cfg, worlds, steps) && |steps| == 2
    ensures var req := CollectRequest(3600, Some(-1));
      steps[1] == PostCollect(2, req, SOURCES) &&
      CollectIncidentEvidence(worlds[1].db, 2, req, SOURCES, 0) == Interrupted(worlds[2].db)
    ensures LeftRunning(worlds[2].db, 3, 2, SOURCES, [])
  {
    hide IsRun, Sound, Opened, CollectIncidentEvidence, LeftRunning;
    worlds, steps := BackwardsWindowHistory(cfg, choose);
    RunSteps(cfg, worlds, steps, 1);
    ReachableIsSound(cfg, worlds, steps, 1);
    WindowIsBackwards();
    var results := InterruptedLeavesRunning(
      Opened(), 2, CollectRequest(3600, Some(-1)), SOURCES, cfg.hash, cfg.window, 0);
    assert Queried(SOURCES[0], 0, -1).attempt.Raised?;
    assert results == [];
  }

  lemma RunSteps(cfg: Config, worlds: seq<World>, steps: seq<Step>, k: nat)
    requires IsRun(cfg, worlds, steps) && k < |steps|
    ensures |worlds| == |steps| + 1 && Next(cfg, worlds[k], steps[k], worlds[k + 1])
  {}
}
