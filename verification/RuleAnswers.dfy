/** What a rule-based analysis answers and stores, told in rows of the store. */
module RuleAnswers {
  import opened Base
  import opened Schema
  import opened Correlation
  import opened Investigation
  import opened Gate
  import opened Provenance
  import opened Collection
  import opened CaseSteps
  import opened Soundness
  import opened Analysis
  import J = Json

  /** The run has evidence of this kind. */
  ghost predicate HasEvidence(t: Tables, run: Id, kind: SourceType) {
    exists e :: e in t.evidence && t.evidence[e].run == run && t.evidence[e].source == kind
  }

  /** Deployments, metrics and logs of the run. */
  function RuleEvidence(t: Tables, run: Id): set<Id> {
    set e | e in t.evidence && t.evidence[e].run == run &&
      (t.evidence[e].source == Deployment || t.evidence[e].source == Metric || t.evidence[e].source == Log)
  }

  /** A deployment with a metric, a log or an error mentioned, two rows in all, and confidence enough for them. */
  ghost predicate RulesSupport(t: Tables, run: Id, errorMentioned: bool, minConfidence: real) {
    var n := |RuleEvidence(t, run)|;
    && HasEvidence(t, run, Deployment)
    && (HasEvidence(t, run, Metric) || HasEvidence(t, run, Log) || errorMentioned)
    && n >= 2 && minConfidence <= 0.95 && minConfidence <= 0.55 + 0.1 * n as real
  }

  /** The hypothesis and the rollback that a supported analysis stores, and nothing beside them. */
  ghost predicate StoresRegression(t: Tables, u: Tables, i: Id, run: Id, h: Id, r: Id) {
    && u.hypotheses.Keys == t.hypotheses.Keys + {h} && h !in t.hypotheses
    && u.hypotheses[h].run == run && u.hypotheses[h].rootCause == "deployment_regression"
    && (|RuleEvidence(t, run)| <= 4 ==>
         u.hypotheses[h].confidence == Finite(0.55 + 0.1 * |RuleEvidence(t, run)| as real))
    && (|RuleEvidence(t, run)| >= 4 ==> u.hypotheses[h].confidence == Finite(0.95))
    && CitedBy(u, h) == RuleEvidence(t, run)
    && u.recommendations == t.recommendations[
         r := Recommendation(run, h, "simulated_rollback", map["incident_id" := J.Str(J.IdText(i))])]
    && r !in t.recommendations
  }

  /** The analysis of one run: supported and stored, or insufficient and nothing stored. */
  ghost predicate RunAnalyzed(
    t: Tables, u: Tables, i: Id, run: Id, errorMentioned: bool, minConfidence: real, now: int, reply: AnalyzeReply)
  {
    && reply.run == run && run in u.runs && u.runs[run].status == reply.status && u.runs[run].finishedAt == Some(now)
    && if RulesSupport(t, run, errorMentioned, minConfidence)
       then
         reply.status == RunCompleted && reply.hypothesis.Some? && reply.recommendation.Some? &&
         StoresRegression(t, u, i, run, reply.hypothesis.value, reply.recommendation.value)
       else
         reply.status == RunInsufficient && reply.hypothesis.None? && reply.recommendation.None? &&
         u.hypotheses == t.hypotheses && u.citations == t.citations && u.recommendations == t.recommendations
  }

  /******* The verdict *******/

  lemma RuleEvidenceIsCited(t: Tables, run: Id)
    ensures CitedEvidence(t, run) == RuleEvidence(t, run)
  {}

  lemma KindIsThere(t: Tables, run: Id, kind: SourceType)
    ensures OfKind(t, run, kind) != {} <==> HasEvidence(t, run, kind)
  {
    if e :| e in t.evidence && t.evidence[e].run == run && t.evidence[e].source == kind {
      assert e in OfKind(t, run, kind);
    }
  }

  lemma SupportedExactly(t: Tables, run: Id, errorMentioned: bool, minConfidence: real)
    ensures Supported(t, run, errorMentioned, minConfidence) <==> RulesSupport(t, run, errorMentioned, minConfidence)
  {
    RuleEvidenceIsCited(t, run);
    KindIsThere(t, run, Deployment);
    KindIsThere(t, run, Metric);
    KindIsThere(t, run, Log);
    hide OfKind, CitedEvidence, RuleEvidence, HasEvidence;
  }

  lemma SupportNeedsEvidence(t: Tables, run: Id, errorMentioned: bool, minConfidence: real)
    requires RulesSupport(t, run, errorMentioned, minConfidence)
    ensures EvidenceOfRun(t, run) != {}
  {
    var e :| e in t.evidence && t.evidence[e].run == run && t.evidence[e].source == Deployment;
    assert e in EvidenceOfRun(t, run);
  }

  lemma SameEvidenceSameSupport(t: Tables, u: Tables, run: Id, errorMentioned: bool, minConfidence: real)
    requires u.evidence == t.evidence
    ensures RuleEvidence(u, run) == RuleEvidence(t, run)
    ensures RulesSupport(u, run, errorMentioned, minConfidence) <==> RulesSupport(t, run, errorMentioned, minConfidence)
  {
    assert RuleEvidence(u, run) == RuleEvidence(t, run);
    forall kind ensures HasEvidence(u, run, kind) <==> HasEvidence(t, run, kind) {}
    hide RuleEvidence, HasEvidence;
  }

  /******* The writes *******/

  lemma TakingKeepsFindings(t: Tables, i: Id, run: Id, now: int)
    requires i in t.incidents && run in t.runs
    ensures var taken := MarkAnalyzing(TakeRun(t, run, now), i);
      taken.hypotheses == t.hypotheses && taken.citations == t.citations &&
      taken.recommendations == t.recommendations && taken.evidence == t.evidence && taken.nextId == t.nextId &&
      run in taken.runs
  {}

  lemma FinishingKeepsFindings(t: Tables, run: Id, status: RunStatus, now: int)
    requires run in t.runs
    ensures var u := FinishRun(t, run, status, now);
      u.hypotheses == t.hypotheses && u.citations == t.citations && u.recommendations == t.recommendations &&
      u.evidence == t.evidence && run in u.runs && u.runs[run].status == status && u.runs[run].finishedAt == Some(now)
  {}

  lemma HypothesisWrites(t: Tables, run: Id, h: HypothesisCreate)
    requires ValidHypothesis(h) && RecordHypothesis(t, run, h).Done?
    requires forall c :: c in t.citations ==> c.hypothesis < t.nextId
    ensures var made := RecordHypothesis(t, run, h);
      made.value == t.nextId && CitedBy(made.tables, t.nextId) == h.evidence &&
      made.tables.hypotheses == t.hypotheses[t.nextId := Hypothesis(run, h.rootCause, h.summary, h.confidence)] &&
      made.tables.recommendations == t.recommendations && made.tables.nextId == t.nextId + 1 && run in made.tables.runs
  {
    RecordedCitations(t, run, h, RecordHypothesis(t, run, h).tables);
    hide ValidHypothesis, CitationsInRun, CitedBy;
  }

  lemma ProposalWrites(t: Tables, i: Id, run: Id, h: Id)
    requires ValidRecommendation(RollbackProposal(i, h)) && RecordRecommendation(t, run, RollbackProposal(i, h)).Done?
    ensures var made := RecordRecommendation(t, run, RollbackProposal(i, h));
      made.value == t.nextId && made.tables.hypotheses == t.hypotheses && made.tables.citations == t.citations &&
      made.tables.recommendations == t.recommendations[t.nextId :=
        Recommendation(run, h, "simulated_rollback", map["incident_id" := J.Str(J.IdText(i))])] &&
      run in made.tables.runs
  {
    hide ValidRecommendation;
  }

  lemma ConfidenceIsCapped(n: nat)
    ensures n <= 4 ==> Confidence(n) == 0.55 + 0.1 * n as real
    ensures n >= 4 ==> Confidence(n) == 0.95
  {}

  lemma SameCitations(t: Tables, u: Tables, h: Id)
    requires u.citations == t.citations
    ensures CitedBy(u, h) == CitedBy(t, h)
  {}

  /** The draft the rules make of a run. */
  lemma DraftInRows(t: Tables, run: Id)
    ensures var draft := RegressionHypothesis(t, run);
      draft.rootCause == "deployment_regression" && draft.evidence == RuleEvidence(t, run) &&
      draft.confidence == Finite(Confidence(|RuleEvidence(t, run)|))
  {
    RuleEvidenceIsCited(t, run);
    hide CitedEvidence, RuleEvidence;
  }

  /** All that a supported analysis writes. */
  lemma RegressionWrites(t: Tables, i: Id, run: Id, now: int)
    requires run in t.runs && ValidHypothesis(RegressionHypothesis(t, run))
    requires forall c :: c in t.citations ==> c.hypothesis < t.nextId
    requires RecordRegression(t, i, run, now).Done?
    ensures var result, draft := RecordRegression(t, i, run, now), RegressionHypothesis(t, run);
      var u := result.tables;
      result.value == AnalyzeReply(run, RunCompleted, Some(t.nextId), Some(t.nextId + 1)) &&
      u.hypotheses == t.hypotheses[t.nextId := Hypothesis(run, draft.rootCause, draft.summary, draft.confidence)] &&
      CitedBy(u, t.nextId) == draft.evidence &&
      u.recommendations == t.recommendations[t.nextId + 1 :=
        Recommendation(run, t.nextId, "simulated_rollback", map["incident_id" := J.Str(J.IdText(i))])] &&
      run in u.runs && u.runs[run].status == RunCompleted && u.runs[run].finishedAt == Some(now)
  {
    hide RegressionHypothesis, ValidHypothesis, ValidRecommendation, RollbackProposal, FinishRun, RecordHypothesis,
      RecordRecommendation, CitedBy;
    var draft := RegressionHypothesis(t, run);
    ProposalIsValid(i, t.nextId);
    HypothesisWrites(t, run, draft);
    var u := RecordHypothesis(t, run, draft).tables;
    ProposalWrites(u, i, run, t.nextId);
    var v := RecordRecommendation(u, run, RollbackProposal(i, t.nextId)).tables;
    FinishingKeepsFindings(v, run, RunCompleted, now);
    SameCitations(u, FinishRun(v, run, RunCompleted, now), t.nextId);
  }

  lemma RegressionStores(t: Tables, i: Id, run: Id, now: int)
    requires run in t.runs && ValidHypothesis(RegressionHypothesis(t, run))
    requires forall c :: c in t.citations ==> c.hypothesis < t.nextId
    requires t.nextId !in t.hypotheses && t.nextId + 1 !in t.recommendations
    requires RecordRegression(t, i, run, now).Done?
    ensures StoresRegression(t, RecordRegression(t, i, run, now).tables, i, run, t.nextId, t.nextId + 1)
  {
    hide RegressionHypothesis, ValidHypothesis, RecordRegression, RuleEvidence, CitedBy, StoresRegression;
    DraftInRows(t, run);
    RegressionWrites(t, i, run, now);
    var draft := RegressionHypothesis(t, run);
    RowsStoreRegression(
      t, RecordRegression(t, i, run, now).tables, i, run, t.nextId, t.nextId + 1, draft.rootCause, draft.summary);
  }

  lemma RowsStoreRegression(
    t: Tables, u: Tables, i: Id, run: Id, h: Id, r: Id, rootCause: string, summary: string)
    requires h !in t.hypotheses && r !in t.recommendations && rootCause == "deployment_regression"
    requires u.hypotheses ==
      t.hypotheses[h := Hypothesis(run, rootCause, summary, Finite(Confidence(|RuleEvidence(t, run)|)))]
    requires CitedBy(u, h) == RuleEvidence(t, run)
    requires u.recommendations == t.recommendations[
      r := Recommendation(run, h, "simulated_rollback", map["incident_id" := J.Str(J.IdText(i))])]
    ensures StoresRegression(t, u, i, run, h, r)
  {
    ConfidenceIsCapped(|RuleEvidence(t, run)|);
    hide RuleEvidence, CitedBy, Confidence;
  }

  lemma StoresSame(t: Tables, taken: Tables, u: Tables, i: Id, run: Id, h: Id, r: Id)
    requires taken.hypotheses == t.hypotheses && taken.recommendations == t.recommendations
    requires RuleEvidence(taken, run) == RuleEvidence(t, run)
    requires StoresRegression(taken, u, i, run, h, r)
    ensures StoresRegression(t, u, i, run, h, r)
  {
    hide RuleEvidence, CitedBy;
  }

  lemma SoundIdsAreNew(t: Tables, hash: Hash, w: int, now: int)
    requires Sound(t, hash, w, now)
    ensures forall c :: c in t.citations ==> c.hypothesis < t.nextId
    ensures forall h :: h in t.hypotheses ==> h < t.nextId
    ensures forall r :: r in t.recommendations ==> r < t.nextId
  {
    hide Correlated, Lifecycle;
    forall c | c in t.citations ensures c.hypothesis < t.nextId {
      assert CitationFits(t, c);
    }
  }

  /** Supported, the run completes with what is stored. */
  lemma SupportedRunAnalyzed(
    t: Tables, taken: Tables, i: Id, run: Id, errorMentioned: bool, minConfidence: real, now: int)
    requires RulesSupport(t, run, errorMentioned, minConfidence) && RuleEvidence(taken, run) == RuleEvidence(t, run)
    requires taken.hypotheses == t.hypotheses && taken.recommendations == t.recommendations && run in taken.runs
    requires ValidHypothesis(RegressionHypothesis(taken, run)) && RecordRegression(taken, i, run, now).Done?
    requires forall c :: c in taken.citations ==> c.hypothesis < taken.nextId
    requires taken.nextId !in t.hypotheses && taken.nextId + 1 !in t.recommendations
    ensures var result := RecordRegression(taken, i, run, now);
      RunAnalyzed(t, result.tables, i, run, errorMentioned, minConfidence, now, result.value)
  {
    hide RulesSupport, RegressionHypothesis, ValidHypothesis, RecordRegression, StoresRegression, RuleEvidence, CitedBy;
    RegressionWrites(taken, i, run, now);
    RegressionStores(taken, i, run, now);
    StoresSame(t, taken, RecordRegression(taken, i, run, now).tables, i, run, taken.nextId, taken.nextId + 1);
  }

  /** Not supported, the run ends insufficient, with nothing stored. */
  lemma UnsupportedRunAnalyzed(
    t: Tables, taken: Tables, i: Id, run: Id, errorMentioned: bool, minConfidence: real, now: int)
    requires !RulesSupport(t, run, errorMentioned, minConfidence) && run in taken.runs
    requires taken.hypotheses == t.hypotheses && taken.citations == t.citations
    requires taken.recommendations == t.recommendations
    ensures RunAnalyzed(t, FinishRun(taken, run, RunInsufficient, now), i, run, errorMentioned, minConfidence, now,
                        AnalyzeReply(run, RunInsufficient, None, None))
  {
    FinishingKeepsFindings(taken, run, RunInsufficient, now);
    hide RulesSupport, FinishRun;
  }

  /** The analysis of a run of the incident always succeeds, and its verdict is the one in rows. */
  lemma AnalyzesExactly(
    t: Tables, i: Id, run: Id, req: AnalyzeRequest, errorMentioned: bool, hash: Hash, w: int, now: int)
    requires Sound(t, hash, w, now) && i in t.incidents && run in t.runs && t.runs[run].incident == i
    ensures var result := AnalyzeRun(t, i, run, req, errorMentioned, now);
      result.Done? && RunAnalyzed(t, result.tables, i, run, errorMentioned, req.minConfidence, now, result.value)
  {
    hide Sound, Supported, RulesSupport, MarkAnalyzing, FinishRun, RegressionHypothesis, ValidHypothesis,
      RecordRegression, RunAnalyzed, EvidenceOfRun, RuleEvidence;
    AnalyzeRunPreserves(t, i, run, req, errorMentioned, hash, w, now);
    SoundIdsAreNew(t, hash, w, now);
    var taken := MarkAnalyzing(TakeRun(t, run, now), i);
    TakingKeepsFindings(t, i, run, now);
    SameEvidenceSameSupport(t, taken, run, errorMentioned, req.minConfidence);
    SupportedExactly(taken, run, errorMentioned, req.minConfidence);
    if RulesSupport(t, run, errorMentioned, req.minConfidence) {
      SupportNeedsEvidence(t, run, errorMentioned, req.minConfidence);
      DraftIsGroundedByRules(taken, run, errorMentioned, req.minConfidence);
      SupportedRunAnalyzed(t, taken, i, run, errorMentioned, req.minConfidence, now);
    } else {
      UnsupportedRunAnalyzed(t, t, i, run, errorMentioned, req.minConfidence, now);
      UnsupportedRunAnalyzed(t, taken, i, run, errorMentioned, req.minConfidence, now);
    }
  }

  /******* The run *******/

  ghost predicate RunOf(t: Tables, i: Id, run: Id) {
    run in t.runs && t.runs[run].incident == i
  }

  /** The requested run of the incident, or one created last among its runs. */
  ghost predicate RunIsChosen(t: Tables, i: Id, requested: Option<Id>, run: Id) {
    RunOf(t, i, run) &&
    if requested.Some? then run == requested.value
    else forall q :: RunOf(t, i, q) ==> t.runs[q].createdAt <= t.runs[run].createdAt
  }

  lemma {:induction false} LatestRunExists(t: Tables, runs: set<Id>) returns (latest: Id)
    requires runs != {} && forall r :: r in runs ==> r in t.runs
    ensures latest in runs && forall r :: r in runs ==> t.runs[r].createdAt <= t.runs[latest].createdAt
    decreases |runs|
  {
    latest :| latest in runs;
    if runs != {latest} {
      var other := LatestRunExists(t, runs - {latest});
      if t.runs[latest].createdAt < t.runs[other].createdAt {
        latest := other;
      }
    }
  }

  lemma RunIsChosenExactly(t: Tables, i: Id, requested: Option<Id>, choose: RowChoice)
    ensures var found := RunToAnalyze(t, i, requested, choose);
      (found.Some? <==> if requested.Some? then RunOf(t, i, requested.value) else exists q :: RunOf(t, i, q)) &&
      (found.Some? ==> RunIsChosen(t, i, requested, found.value))
  {
    if requested.None? {
      if q :| RunOf(t, i, q) {
        var runs := set r | r in t.runs && t.runs[r].incident == i;
        assert q in runs;
        var latest := LatestRunExists(t, runs);
        assert latest in LatestRuns(t, i);
      }
      var found := RunToAnalyze(t, i, requested, choose);
      if found.Some? {
        assert found.value in LatestRuns(t, i) && RunOf(t, i, found.value);
      }
    }
  }

  /** Every answer of an analysis on a sound store. */
  ghost predicate AnalysisAnswered(
    t: Tables, i: Id, req: AnalyzeRequest, errorMentioned: bool, now: int, result: Outcome<AnalyzeReply>)
  {
    if i !in t.incidents then result == Refused(IncidentNotFound)
    else if !(if req.run.Some? then RunOf(t, i, req.run.value) else exists q :: RunOf(t, i, q))
    then result == Refused(RunNotFound)
    else
      result.Done? && RunIsChosen(t, i, req.run, result.value.run) &&
      RunAnalyzed(t, result.tables, i, result.value.run, errorMentioned, req.minConfidence, now, result.value)
  }

  lemma AnalysisAnswersExactly(
    t: Tables, i: Id, req: AnalyzeRequest, errorMentioned: bool, choose: RowChoice, hash: Hash, w: int, now: int)
    requires Sound(t, hash, w, now)
    ensures AnalysisAnswered(t, i, req, errorMentioned, now, AnalyzeIncident(t, i, req, errorMentioned, now, choose))
  {
    hide Sound, AnalyzeRun, RunAnalyzed, RunToAnalyze;
    RunIsChosenExactly(t, i, req.run, choose);
    var found := RunToAnalyze(t, i, req.run, choose);
    if i in t.incidents && found.Some? {
      AnalyzesExactly(t, i, found.value, req, errorMentioned, hash, w, now);
      AnalyzedRunIsAnswered(t, i, found.value, req, errorMentioned, now);
    }
  }

  lemma AnalyzedRunIsAnswered(t: Tables, i: Id, run: Id, req: AnalyzeRequest, errorMentioned: bool, now: int)
    requires i in t.incidents && run in t.runs
    requires AnalyzeRun(t, i, run, req, errorMentioned, now).Done?
    requires var result := AnalyzeRun(t, i, run, req, errorMentioned, now);
      RunAnalyzed(t, result.tables, i, run, errorMentioned, req.minConfidence, now, result.value)
    ensures AnalyzeRun(t, i, run, req, errorMentioned, now).value.run == run
  {
    hide AnalyzeRun, RulesSupport, StoresRegression;
  }
}
