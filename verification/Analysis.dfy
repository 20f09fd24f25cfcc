/** The deterministic analysis: rules over the evidence of one run, and the same records as the agent. */
module Analysis {
  import opened Base
  import opened Schema
  import opened Investigation
  import opened Gate
  import opened Provenance
  import opened Collection
  import opened Soundness
  import opened CaseSteps
  import J = Json

  /** `minConfidence` is validated to lie in [0, 1]. */
  datatype AnalyzeRequest = AnalyzeRequest(run: Option<Id>, minConfidence: real)

  datatype AnalyzeReply = AnalyzeReply(
    run: Id, status: RunStatus, hypothesis: Option<Id>, recommendation: Option<Id>)

  function LatestRuns(t: Tables, i: Id): set<Id> {
    set r | r in t.runs && t.runs[r].incident == i &&
      forall q :: q in t.runs && t.runs[q].incident == i ==> t.runs[q].createdAt <= t.runs[r].createdAt
  }

  /** The requested run of this incident, or its latest one. */
  function RunToAnalyze(t: Tables, i: Id, requested: Option<Id>, choose: RowChoice): Option<Id> {
    match requested
    case Some(r) => if r in t.runs && t.runs[r].incident == i then Some(r) else None
    case None => FirstRow(LatestRuns(t, i), choose)
  }

  function OfKind(t: Tables, run: Id, kind: SourceType): set<Id> {
    set e | e in t.evidence && t.evidence[e].run == run && t.evidence[e].source == kind
  }

  function CitedEvidence(t: Tables, run: Id): set<Id> {
    OfKind(t, run, Deployment) + OfKind(t, run, Metric) + OfKind(t, run, Log)
  }

  /** A deployment together with a metric, a log, or an error mentioned in the text. */
  predicate Regression(t: Tables, run: Id, errorMentioned: bool) {
    OfKind(t, run, Deployment) != {} &&
    (OfKind(t, run, Metric) != {} || OfKind(t, run, Log) != {} || errorMentioned)
  }

  function Confidence(citations: nat): real {
    var c := 0.55 + 0.1 * citations as real;
    if c < 0.95 then c else 0.95
  }

  /** When the rules support a cited root cause at the requested confidence. */
  predicate Supported(t: Tables, run: Id, errorMentioned: bool, minConfidence: real) {
    var n := |CitedEvidence(t, run)|;
    Regression(t, run, errorMentioned) && n >= 2 && minConfidence <= Confidence(n)
  }

  function RegressionHypothesis(t: Tables, run: Id): HypothesisCreate {
    var cited := CitedEvidence(t, run);
    HypothesisCreate("deployment_regression", "deployment", Finite(Confidence(|cited|)), cited)
  }

  function RollbackProposal(i: Id, hypothesis: Id): RecommendationCreate {
    RecommendationCreate(hypothesis, ROLLBACK, map["incident_id" := J.Str(J.IdText(i))], "rollback")
  }

  /** The run is taken over: running, started if it was not. */
  function TakeRun(t: Tables, run: Id, now: int): Tables
    requires run in t.runs
  {
    var row := t.runs[run];
    SetRun(t, run, row.(status := RunRunning,
                        startedAt := if row.startedAt.Some? then row.startedAt else Some(now)))
  }

  lemma DraftIsValid(t: Tables, run: Id)
    ensures |CitedEvidence(t, run)| >= 2 ==> ValidHypothesis(RegressionHypothesis(t, run))
  {
    assert "deployment_regression"[0] == 'd' && "deployment"[0] == 'd';
    assert !IsSpace('d');
  }

  lemma ProposalIsValid(i: Id, h: Id)
    ensures ValidRecommendation(RollbackProposal(i, h))
  {
    assert ROLLBACK[0] == 's' && "rollback"[0] == 'r';
    assert !IsSpace('s') && !IsSpace('r');
  }

  /** Stores the supported hypothesis and its rollback proposal, and completes the run. */
  function RecordRegression(t: Tables, i: Id, run: Id, now: int): Outcome<AnalyzeReply>
    requires run in t.runs && ValidHypothesis(RegressionHypothesis(t, run))
  {
    RecordWithRollback(t, i, run, RegressionHypothesis(t, run), now)
  }

  function RecordWithRollback(t: Tables, i: Id, run: Id, draft: HypothesisCreate, now: int): Outcome<AnalyzeReply>
    requires run in t.runs && ValidHypothesis(draft)
  {
    match RecordHypothesis(t, run, draft)
    case Refused(e) => Refused(e)
    case Done(u, h) =>
      ProposalIsValid(i, h);
      match RecordRecommendation(u, run, RollbackProposal(i, h))
      case Refused(e) => Refused(e)
      case Done(v, r) =>
        Done(FinishRun(v, run, RunCompleted, now), AnalyzeReply(run, RunCompleted, Some(h), Some(r)))
  }

  function AnalyzeRun(
    t: Tables, i: Id, run: Id, req: AnalyzeRequest, errorMentioned: bool, now: int): Outcome<AnalyzeReply>
    requires i in t.incidents && run in t.runs
  {
    if EvidenceOfRun(t, run) == {} then
      Done(FinishRun(t, run, RunInsufficient, now), AnalyzeReply(run, RunInsufficient, None, None))
    else
      var taken := MarkAnalyzing(TakeRun(t, run, now), i);
      if !Supported(taken, run, errorMentioned, req.minConfidence) then
        Done(FinishRun(taken, run, RunInsufficient, now), AnalyzeReply(run, RunInsufficient, None, None))
      else
        DraftIsValid(taken, run);
        RecordRegression(taken, i, run, now)
  }

  function AnalyzeIncident(
    t: Tables, i: Id, req: AnalyzeRequest, errorMentioned: bool, now: int, choose: RowChoice): Outcome<AnalyzeReply>
  {
    if i !in t.incidents then Refused(IncidentNotFound)
    else
      match RunToAnalyze(t, i, req.run, choose)
      case None => Refused(RunNotFound)
      case Some(run) => AnalyzeRun(t, i, run, req, errorMentioned, now)
  }

  /******* Properties *******/

  /** Every citation of the rules is evidence of the analysed run. */
  lemma CitedEvidenceIsOfRun(t: Tables, run: Id)
    ensures CitationsInRun(t, run, CitedEvidence(t, run))
  {}

  /** Recording never fails: the proposal's hypothesis is cited, and in the run. */
  lemma RegressionPreserves(t: Tables, i: Id, run: Id, hash: Hash, w: int, now: int)
    requires Sound(t, hash, w, now) && run in t.runs && ValidHypothesis(RegressionHypothesis(t, run))
    ensures RecordRegression(t, i, run, now).Done? && Sound(RecordRegression(t, i, run, now).tables, hash, w, now)
  {
    CitedEvidenceIsOfRun(t, run);
    ProposalIsValid(i, t.nextId);
    var u, v := BothPreserve(t, run, RegressionHypothesis(t, run), RollbackProposal(i, t.nextId), hash, w, now);
    FinishRunPreserves(v, run, RunCompleted, hash, w, now);
    RegressionUnfolds(t, i, run, now, u, v);
  }

  lemma RegressionUnfolds(t: Tables, i: Id, run: Id, now: int, u: Tables, v: Tables)
    requires run in t.runs && ValidHypothesis(RegressionHypothesis(t, run))
    requires RecordHypothesis(t, run, RegressionHypothesis(t, run)) == Done(u, t.nextId)
    requires ValidRecommendation(RollbackProposal(i, t.nextId))
    requires RecordRecommendation(u, run, RollbackProposal(i, t.nextId)) == Done(v, u.nextId)
    requires run in v.runs
    ensures RecordRegression(t, i, run, now) ==
      Done(FinishRun(v, run, RunCompleted, now), AnalyzeReply(run, RunCompleted, Some(t.nextId), Some(u.nextId)))
  {}

  lemma TakeRunPreserves(t: Tables, run: Id, hash: Hash, w: int, now: int)
    requires Sound(t, hash, w, now) && run in t.runs
    ensures Sound(TakeRun(t, run, now), hash, w, now)
  {
    assert RunFits(t, t.runs[run], now);
    var row := t.runs[run];
    SetRunPreserves(t, run, row.(status := RunRunning,
      startedAt := if row.startedAt.Some? then row.startedAt else Some(now)), hash, w, now);
  }

  lemma TakenRunPreserves(t: Tables, i: Id, run: Id, hash: Hash, w: int, now: int)
    requires Sound(t, hash, w, now) && i in t.incidents && run in t.runs && t.runs[run].incident == i
    ensures Sound(MarkAnalyzing(TakeRun(t, run, now), i), hash, w, now)
  {
    TakeRunPreserves(t, run, hash, w, now);
    var taken := TakeRun(t, run, now);
    assert taken.runs[run].incident == i;
    assert HasRun(taken, i);
    MarkAnalyzingPreserves(taken, i, hash, w, now);
  }

  /** Analysis of a run of the incident never fails, and keeps the store sound. */
  lemma AnalyzeRunPreserves(
    t: Tables, i: Id, run: Id, req: AnalyzeRequest, errorMentioned: bool, hash: Hash, w: int, now: int)
    requires Sound(t, hash, w, now) && i in t.incidents && run in t.runs && t.runs[run].incident == i
    ensures var result := AnalyzeRun(t, i, run, req, errorMentioned, now);
      result.Done? && Sound(result.tables, hash, w, now)
  {
    hide Sound;
    if EvidenceOfRun(t, run) == {} {
      FinishRunPreserves(t, run, RunInsufficient, hash, w, now);
    } else {
      var taken := MarkAnalyzing(TakeRun(t, run, now), i);
      TakenRunPreserves(t, i, run, hash, w, now);
      if Supported(taken, run, errorMentioned, req.minConfidence) {
        DraftIsValid(taken, run);
        RegressionPreserves(taken, i, run, hash, w, now);
      } else {
        FinishRunPreserves(taken, run, RunInsufficient, hash, w, now);
      }
    }
  }

  lemma AnalyzePreserves(
    t: Tables, i: Id, req: AnalyzeRequest, errorMentioned: bool, choose: RowChoice, hash: Hash, w: int, now: int)
    requires Sound(t, hash, w, now)
    ensures var result := AnalyzeIncident(t, i, req, errorMentioned, now, choose);
      result.Done? ==> Sound(result.tables, hash, w, now)
  {
    hide Sound, AnalyzeRun;
    if i in t.incidents {
      var run := RunToAnalyze(t, i, req.run, choose);
      if run.Some? {
        AnalyzeRunPreserves(t, i, run.value, req, errorMentioned, hash, w, now);
      }
    }
  }

  /** The evidence a hypothesis cites. */
  function CitedBy(t: Tables, h: Id): set<Id> {
    set c | c in t.citations && c.hypothesis == h :: c.evidence
  }

  /** Hypothesis h of the run cites exactly its deployments, metrics and logs, a deployment among them. */
  ghost predicate GroundedByRules(t: Tables, u: Tables, run: Id, h: Id, minConfidence: real) {
    && h in u.hypotheses && u.hypotheses[h].run == run
    && CitedBy(u, h) == CitedEvidence(t, run) && |CitedBy(u, h)| >= 2 && CitedBy(u, h) * OfKind(t, run, Deployment) != {}
    && u.hypotheses[h].confidence.Finite? && 0.75 <= u.hypotheses[h].confidence.value <= 0.95
    && minConfidence <= u.hypotheses[h].confidence.value
  }

  lemma TakingKeepsEvidence(t: Tables, i: Id, run: Id, now: int)
    requires i in t.incidents && run in t.runs
    ensures var taken := MarkAnalyzing(TakeRun(t, run, now), i);
      taken.evidence == t.evidence && taken.citations == t.citations && taken.nextId == t.nextId && run in taken.runs
  {}

  lemma RecordedCitations(t: Tables, run: Id, draft: HypothesisCreate, u: Tables)
    requires ValidHypothesis(draft) && RecordHypothesis(t, run, draft) == Done(u, t.nextId)
    requires forall c :: c in t.citations ==> c.hypothesis < t.nextId
    ensures CitedBy(u, t.nextId) == draft.evidence
    ensures u.hypotheses == t.hypotheses[t.nextId := Hypothesis(run, draft.rootCause, draft.summary, draft.confidence)]
  {
    forall e | e in draft.evidence ensures e in CitedBy(u, t.nextId) {
      assert Citation(t.nextId, e, run) in u.citations;
    }
  }

  lemma LaterWritesKeepHypotheses(u: Tables, i: Id, run: Id, h: Id, now: int)
    requires run in u.runs && ValidRecommendation(RollbackProposal(i, h))
    ensures var made := RecordRecommendation(u, run, RollbackProposal(i, h));
      made.Done? ==>
        FinishRun(made.tables, run, RunCompleted, now).hypotheses == u.hypotheses &&
        FinishRun(made.tables, run, RunCompleted, now).citations == u.citations
  {}

  lemma KindsOfSameEvidence(t: Tables, u: Tables, run: Id)
    requires u.evidence == t.evidence
    ensures CitedEvidence(u, run) == CitedEvidence(t, run) && OfKind(u, run, Deployment) == OfKind(t, run, Deployment)
  {}

  /** The draft of a supported root cause. */
  lemma DraftIsGroundedByRules(t: Tables, run: Id, errorMentioned: bool, minConfidence: real)
    requires Supported(t, run, errorMentioned, minConfidence)
    ensures var draft := RegressionHypothesis(t, run);
      ValidHypothesis(draft) && draft.evidence == CitedEvidence(t, run) &&
      |draft.evidence| >= 2 && draft.evidence * OfKind(t, run, Deployment) != {} &&
      draft.confidence.Finite? && 0.75 <= draft.confidence.value <= 0.95 && minConfidence <= draft.confidence.value
  {
    DraftIsValid(t, run);
    hide ValidHypothesis;
    var e :| e in OfKind(t, run, Deployment);
    assert e in CitedEvidence(t, run) * OfKind(t, run, Deployment);
  }

  /** Recording a valid draft stores exactly its citations and confidence, under a new id. */
  lemma RecordedDraft(t: Tables, i: Id, run: Id, draft: HypothesisCreate, now: int)
    requires run in t.runs && ValidHypothesis(draft) && forall c :: c in t.citations ==> c.hypothesis < t.nextId
    requires RecordWithRollback(t, i, run, draft, now).Done?
    ensures var result := RecordWithRollback(t, i, run, draft, now);
      result.value.hypothesis == Some(t.nextId) && CitedBy(result.tables, t.nextId) == draft.evidence &&
      t.nextId in result.tables.hypotheses &&
      result.tables.hypotheses[t.nextId] == Hypothesis(run, draft.rootCause, draft.summary, draft.confidence)
  {
    hide ValidHypothesis, ValidRecommendation, RecordRecommendation, RollbackProposal, FinishRun, CitationsInRun;
    var made := RecordHypothesis(t, run, draft);
    ProposalIsValid(i, t.nextId);
    RecordedCitations(t, run, draft, made.tables);
    LaterWritesKeepHypotheses(made.tables, i, run, t.nextId, now);
    hide RecordHypothesis;
  }

  /** What the rules store is grounded in the run's evidence, a deployment included, and confident enough. */
  lemma RulesAreGrounded(t: Tables, i: Id, run: Id, req: AnalyzeRequest, errorMentioned: bool, now: int)
    requires i in t.incidents && run in t.runs && forall c :: c in t.citations ==> c.hypothesis < t.nextId
    requires AnalyzeRun(t, i, run, req, errorMentioned, now).Done?
    ensures var result := AnalyzeRun(t, i, run, req, errorMentioned, now);
      result.value.hypothesis.Some? ==>
        GroundedByRules(t, result.tables, run, result.value.hypothesis.value, req.minConfidence)
  {
    hide Supported, CitedEvidence, OfKind, CitedBy, MarkAnalyzing, FinishRun, ValidHypothesis,
      RegressionHypothesis, RecordWithRollback, EvidenceOfRun;
    var taken := MarkAnalyzing(TakeRun(t, run, now), i);
    TakingKeepsEvidence(t, i, run, now);
    if EvidenceOfRun(t, run) != {} && Supported(taken, run, errorMentioned, req.minConfidence) {
      KindsOfSameEvidence(t, taken, run);
      DraftIsGroundedByRules(taken, run, errorMentioned, req.minConfidence);
      RecordedDraft(taken, i, run, RegressionHypothesis(taken, run), now);
    }
  }
}
