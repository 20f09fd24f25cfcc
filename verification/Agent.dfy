/**
  The investigation graph: retrieve runbooks, correlate, ask the provider, validate grounding, then
  propose an action and check it. The provider is an arbitrary answer, or an exception.
 */
module Agent {
  import opened Base
  import opened Schema
  import opened Gate
  import J = Json

  /** One evidence item as the nodes see it; its id travels as text. */
  datatype EvidenceRecord = EvidenceRecord(id: Id, source: SourceType, name: string)

  datatype RunbookMatch = RunbookMatch(file: string, title: string)

  datatype LlmResponse = LlmResponse(
    rootCause: Option<string>, summary: Option<string>, confidence: Float, cited: seq<string>,
    action: Option<string>, parameters: map<string, J.Json>, rationale: Option<string>)

  datatype ProviderAnswer = ProviderError | Answered(response: LlmResponse)

  datatype HypothesisDraft = HypothesisDraft(rootCause: string, summary: string, confidence: Float, cited: seq<string>)
  datatype Hint = Hint(action: string, parameters: map<string, J.Json>, rationale: string)
  datatype RecommendationDraft = RecommendationDraft(
    action: string, parameters: map<string, J.Json>, rationale: string, requiresApproval: bool)

  datatype GraphStatus = Running | GraphCompleted | InsufficientEvidence | GraphFailed

  datatype AgentState = AgentState(
    incident: Id, minConfidence: real,
    evidence: seq<EvidenceRecord>, runbooks: seq<EvidenceRecord>, retrieved: seq<RunbookMatch>,
    selected: Option<HypothesisDraft>, hint: Option<Hint>, recommendation: Option<RecommendationDraft>,
    status: GraphStatus, safetyPassed: bool)

  /******* Nodes *******/

  predicate AlreadyStored(evidence: seq<EvidenceRecord>, doc: RunbookMatch) {
    exists e :: e in evidence && e.source == Runbook && e.name == "runbooks/" + doc.file
  }

  /** Adds one match; a runbook that is already evidence gets no second record. */
  function AddMatch(s: AgentState, doc: RunbookMatch, id: Id): AgentState {
    var seen := s.(retrieved := s.retrieved + [doc]);
    if AlreadyStored(s.evidence, doc) then seen
    else
      var record := EvidenceRecord(id, Runbook, "runbooks/" + doc.file);
      seen.(runbooks := s.runbooks + [record], evidence := s.evidence + [record])
  }

  /** The state after the first n matches; record ids are drawn from `firstId` on. */
  function RetrieveRunbooks(s: AgentState, matches: seq<RunbookMatch>, n: nat, firstId: Id): AgentState
    requires n <= |matches|
  {
    if n == 0 then s.(retrieved := [])
    else AddMatch(RetrieveRunbooks(s, matches, n - 1, firstId), matches[n - 1], firstId + n - 1)
  }

  function GiveUp(s: AgentState): AgentState {
    s.(status := InsufficientEvidence, selected := None)
  }

  /** Turns the provider's answer into a draft, or gives up. */
  function GenerateHypotheses(s: AgentState, answer: ProviderAnswer): AgentState {
    match answer
    case ProviderError => GiveUp(s)
    case Answered(r) =>
      if r.rootCause.None? || r.summary.None? then GiveUp(s)
      else if LessThan(r.confidence, Finite(s.minConfidence)) then GiveUp(s)
      else
        s.(selected := Some(HypothesisDraft(r.rootCause.value, r.summary.value, r.confidence, r.cited)),
           hint := HintOf(r), status := Running)
  }

  /** An empty action counts as none, and a missing rationale as empty. */
  function HintOf(r: LlmResponse): Option<Hint> {
    if r.action.Some? && r.action.value != ""
    then Some(Hint(r.action.value, r.parameters, if r.rationale.Some? then r.rationale.value else ""))
    else None
  }

  function IdTexts(evidence: seq<EvidenceRecord>): set<string> {
    set e | e in evidence :: J.IdText(e.id)
  }

  /** Rejects a draft without citations, or with one that names no collected evidence. */
  function ValidateGrounding(s: AgentState): AgentState {
    if s.selected.None? then GiveUp(s)
    else if s.selected.value.cited == [] then GiveUp(s)
    else if exists c :: c in s.selected.value.cited && c !in IdTexts(s.evidence) then GiveUp(s)
    else s.(status := Running)
  }

  predicate ShouldContinue(s: AgentState) {
    s.status != InsufficientEvidence && s.selected.Some?
  }

  function DefaultParameters(incident: Id): map<string, J.Json> {
    map["incident_id" := J.Str(J.IdText(incident))]
  }

  /** Names the runbook to follow; the surrounding wording is shortened. */
  function DefaultRationale(s: AgentState): string {
    "See " + (if s.retrieved == [] then "standard runbook" else s.retrieved[0].title)
  }

  /** Prefers the provider's hint when its action is allow-listed; otherwise proposes a rollback. */
  function ProposeActions(s: AgentState): AgentState {
    if s.selected.None? then s.(recommendation := None)
    else if s.hint.Some? && s.hint.value.action in ALLOWED_ACTIONS then
      var h := s.hint.value;
      s.(recommendation := Some(RecommendationDraft(
           h.action,
           if h.parameters != map[] then h.parameters else DefaultParameters(s.incident),
           if h.rationale != "" then h.rationale else DefaultRationale(s), true)))
    else
      s.(recommendation := Some(RecommendationDraft(ROLLBACK, DefaultParameters(s.incident), DefaultRationale(s), true)))
  }

  function SafetyCheck(s: AgentState): AgentState {
    if s.recommendation.None? then s.(safetyPassed := false, status := GraphFailed)
    else if s.recommendation.value.action !in ALLOWED_ACTIONS then
      s.(safetyPassed := false, status := GraphFailed, recommendation := None)
    else
      s.(safetyPassed := true, status := GraphCompleted,
         recommendation := Some(s.recommendation.value.(requiresApproval := true)))
  }

  /** Correlating signals changes nothing the later nodes decide on. */
  function RunGraph(s: AgentState, matches: seq<RunbookMatch>, firstId: Id, answer: ProviderAnswer): AgentState {
    var validated := ValidateGrounding(
      GenerateHypotheses(RetrieveRunbooks(s, matches, |matches|, firstId), answer));
    if ShouldContinue(validated) then SafetyCheck(ProposeActions(validated)) else validated
  }

  /** The state the orchestrator starts the graph in. */
  predicate Initial(s: AgentState) {
    s.status == Running && s.selected.None? && s.hint.None? && s.recommendation.None?
  }

  /******* What the nodes keep *******/

  /** Pending runbook records: new ids from `firstId` on, each one runbook. */
  ghost predicate PendingRunbooks(pending: seq<EvidenceRecord>, firstId: Id, n: nat) {
    && (forall k :: 0 <= k < |pending| ==> pending[k].source == Runbook && firstId <= pending[k].id < firstId + n)
    && (forall j, k :: 0 <= j < k < |pending| ==> pending[j].id < pending[k].id)
  }

  /** Evidence and runbook evidence grow by the same pending records, and by nothing else. */
  lemma {:induction false} RetrievalAddsPending(s: AgentState, matches: seq<RunbookMatch>, n: nat, firstId: Id)
    returns (pending: seq<EvidenceRecord>)
    requires n <= |matches|
    ensures var r := RetrieveRunbooks(s, matches, n, firstId);
      r.evidence == s.evidence + pending && r.runbooks == s.runbooks + pending &&
      PendingRunbooks(pending, firstId, n) &&
      r == s.(evidence := r.evidence, runbooks := r.runbooks, retrieved := matches[..n])
  {
    if n == 0 {
      pending := [];
    } else {
      pending := RetrievalAddsPending(s, matches, n - 1, firstId);
      assert matches[..n] == matches[..n - 1] + [matches[n - 1]];
      if !AlreadyStored(s.evidence + pending, matches[n - 1]) {
        var record := EvidenceRecord(firstId + n - 1, Runbook, "runbooks/" + matches[n - 1].file);
        assert s.evidence + (pending + [record]) == (s.evidence + pending) + [record];
        assert s.runbooks + (pending + [record]) == (s.runbooks + pending) + [record];
        pending := pending + [record];
      }
    }
  }

  predicate IsRunbook(e: EvidenceRecord, file: string) {
    e.source == Runbook && e.name == "runbooks/" + file
  }

  /** Some record stands for the runbook. */
  ghost predicate StandsFor(all: seq<EvidenceRecord>, file: string) {
    exists e :: e in all && IsRunbook(e, file)
  }

  /** Record x stands for match k, and no record before it does. */
  ghost predicate FirstFor(all: seq<EvidenceRecord>, x: nat, matches: seq<RunbookMatch>, k: nat)
    requires x < |all| && k < |matches|
  {
    IsRunbook(all[x], matches[k].file) && !StandsFor(all[..x], matches[k].file)
  }

  /** Record x is the first to stand for one of the first n matches. */
  ghost predicate FirstForSome(all: seq<EvidenceRecord>, x: nat, matches: seq<RunbookMatch>, n: nat)
    requires x < |all| && n <= |matches|
  {
    exists k :: 0 <= k < n && FirstFor(all, x, matches, k)
  }

  /** Every match is stood for, and each added record is the first to stand for one. */
  ghost predicate CoversOnce(before: seq<EvidenceRecord>, all: seq<EvidenceRecord>, matches: seq<RunbookMatch>, n: nat)
    requires n <= |matches|
  {
    && before <= all
    && (forall k :: 0 <= k < n ==> StandsFor(all, matches[k].file))
    && (forall x :: |before| <= x < |all| ==> FirstForSome(all, x, matches, n))
  }

  /** Every match ends up as evidence, and what is added is a match that no record before it stands for. */
  lemma {:induction false} RetrievalIsExact(s: AgentState, matches: seq<RunbookMatch>, n: nat, firstId: Id)
    requires n <= |matches|
    ensures CoversOnce(s.evidence, RetrieveRunbooks(s, matches, n, firstId).evidence, matches, n)
  {
    if n > 0 {
      RetrievalIsExact(s, matches, n - 1, firstId);
      AddedMatch(s, matches, n, firstId);
      hide CoversOnce, RetrieveRunbooks, AlreadyStored, IsRunbook;
      var before := RetrieveRunbooks(s, matches, n - 1, firstId).evidence;
      var all := RetrieveRunbooks(s, matches, n, firstId).evidence;
      StoredStandsFor(before, matches[n - 1]);
      if AlreadyStored(before, matches[n - 1]) {
        StoredMatchIsCovered(s.evidence, before, matches, n);
      } else {
        AddedMatchIsCovered(s.evidence, before, all[|before|], matches, n);
      }
    }
  }

  lemma StoredStandsFor(all: seq<EvidenceRecord>, doc: RunbookMatch)
    ensures AlreadyStored(all, doc) <==> StandsFor(all, doc.file)
  {
    if e :| e in all && e.source == Runbook && e.name == "runbooks/" + doc.file { assert IsRunbook(e, doc.file); }
  }

  lemma AddedMatch(s: AgentState, matches: seq<RunbookMatch>, n: nat, firstId: Id)
    requires 0 < n <= |matches|
    ensures var before := RetrieveRunbooks(s, matches, n - 1, firstId).evidence;
      var all := RetrieveRunbooks(s, matches, n, firstId).evidence;
      if AlreadyStored(before, matches[n - 1]) then all == before
      else |all| == |before| + 1 && all == before + [all[|before|]] && IsRunbook(all[|before|], matches[n - 1].file)
  {}

  lemma StoredMatchIsCovered(
    start: seq<EvidenceRecord>, before: seq<EvidenceRecord>, matches: seq<RunbookMatch>, n: nat)
    requires 0 < n <= |matches| && CoversOnce(start, before, matches, n - 1)
    requires StandsFor(before, matches[n - 1].file)
    ensures CoversOnce(start, before, matches, n)
  {
    hide StandsFor, FirstFor;
    forall x | |start| <= x < |before| ensures FirstForSome(before, x, matches, n) {
      assert FirstForSome(before, x, matches, n - 1);
      var k :| 0 <= k < n - 1 && FirstFor(before, x, matches, k);
    }
  }

  lemma StandingStays(before: seq<EvidenceRecord>, e: EvidenceRecord, file: string)
    ensures StandsFor(before, file) || IsRunbook(e, file) ==> StandsFor(before + [e], file)
  {
    assert e in before + [e];
    hide IsRunbook;
  }

  lemma FirstStays(before: seq<EvidenceRecord>, e: EvidenceRecord, x: nat, matches: seq<RunbookMatch>, k: nat)
    requires x < |before| && k < |matches| && FirstFor(before, x, matches, k)
    ensures FirstFor(before + [e], x, matches, k)
  {
    hide IsRunbook, StandsFor;
    assert (before + [e])[..x] == before[..x];
  }

  lemma AddedMatchIsCovered(
    start: seq<EvidenceRecord>, before: seq<EvidenceRecord>, e: EvidenceRecord, matches: seq<RunbookMatch>, n: nat)
    requires 0 < n <= |matches| && CoversOnce(start, before, matches, n - 1)
    requires IsRunbook(e, matches[n - 1].file) && !StandsFor(before, matches[n - 1].file)
    ensures CoversOnce(start, before + [e], matches, n)
  {
    var all := before + [e];
    assert all[..|before|] == before;
    assert FirstFor(all, |before|, matches, n - 1);
    hide StandsFor, FirstFor, IsRunbook;
    forall k | 0 <= k < n ensures StandsFor(all, matches[k].file) {
      StandingStays(before, e, matches[k].file);
    }
    forall x | |start| <= x < |all| ensures FirstForSome(all, x, matches, n) {
      if x < |before| {
        assert FirstForSome(before, x, matches, n - 1);
        var k :| 0 <= k < n - 1 && FirstFor(before, x, matches, k);
        FirstStays(before, e, x, matches, k);
      }
    }
  }

  /** The evidence the grounding check looks at: collected records and pending runbooks. */
  function GroundingEvidence(s: AgentState, matches: seq<RunbookMatch>, firstId: Id): seq<EvidenceRecord> {
    RetrieveRunbooks(s, matches, |matches|, firstId).evidence
  }

  predicate AllCited(cited: seq<string>, evidence: seq<EvidenceRecord>) {
    forall c :: c in cited ==> c in IdTexts(evidence)
  }

  /** The answers that survive every backend check. */
  predicate Acceptable(answer: ProviderAnswer, minConfidence: real, evidence: seq<EvidenceRecord>) {
    && answer.Answered?
    && answer.response.rootCause.Some? && answer.response.summary.Some?
    && !LessThan(answer.response.confidence, Finite(minConfidence))
    && answer.response.cited != [] && AllCited(answer.response.cited, evidence)
  }

  /** The state in which nothing is proposed. */
  predicate EndsInsufficient(f: AgentState) {
    f.status == InsufficientEvidence && f.selected.None? && f.recommendation.None?
  }

  /** The state in which a grounded, allow-listed proposal waits for a human. */
  predicate EndsCompleted(f: AgentState) {
    && f.status == GraphCompleted && f.safetyPassed
    && f.selected.Some? && f.selected.value.cited != [] && AllCited(f.selected.value.cited, f.evidence)
    && !LessThan(f.selected.value.confidence, Finite(f.minConfidence))
    && f.recommendation.Some? && f.recommendation.value.action in ALLOWED_ACTIONS
    && f.recommendation.value.requiresApproval
  }

  /** The draft an accepted answer turns into. */
  function DraftOf(r: LlmResponse): HypothesisDraft
    requires r.rootCause.Some? && r.summary.Some?
  {
    HypothesisDraft(r.rootCause.value, r.summary.value, r.confidence, r.cited)
  }

  /** The two checks after retrieval let exactly the acceptable answers through. */
  lemma ChecksFilterAnswers(s: AgentState, answer: ProviderAnswer)
    requires Initial(s)
    ensures var v := ValidateGrounding(GenerateHypotheses(s, answer));
      v.evidence == s.evidence && v.minConfidence == s.minConfidence && v.recommendation.None? &&
      v.incident == s.incident && v.runbooks == s.runbooks && v.retrieved == s.retrieved
    ensures var v := ValidateGrounding(GenerateHypotheses(s, answer));
      if Acceptable(answer, s.minConfidence, s.evidence)
      then ShouldContinue(v) && v.selected == Some(DraftOf(answer.response)) && v.hint == HintOf(answer.response)
      else !ShouldContinue(v) && v.status == InsufficientEvidence && v.selected.None?
  {}

  /** With a draft selected, the last two nodes always end in an allow-listed proposal. */
  lemma ProposalIsAllowListed(v: AgentState)
    requires v.selected.Some?
    ensures var f := SafetyCheck(ProposeActions(v));
      f == v.(safetyPassed := true, status := GraphCompleted, recommendation := f.recommendation) &&
      f.recommendation.Some? && f.recommendation.value.requiresApproval &&
      f.recommendation.value.action ==
        (if v.hint.Some? && v.hint.value.action in ALLOWED_ACTIONS then v.hint.value.action else ROLLBACK) &&
      f.recommendation.value.action in ALLOWED_ACTIONS
  {}

  /** Whatever the provider says, a run completes exactly on an acceptable answer, else gives up. */
  lemma GraphEnds(s: AgentState, matches: seq<RunbookMatch>, firstId: Id, answer: ProviderAnswer)
    requires Initial(s)
    ensures var f := RunGraph(s, matches, firstId, answer);
      var grounds := GroundingEvidence(s, matches, firstId);
      f.evidence == grounds && f.minConfidence == s.minConfidence &&
      if Acceptable(answer, s.minConfidence, grounds)
      then EndsCompleted(f) && f.selected == Some(DraftOf(answer.response))
      else EndsInsufficient(f)
  {
    var pending := RetrievalAddsPending(s, matches, |matches|, firstId);
    var r := RetrieveRunbooks(s, matches, |matches|, firstId);
    ChecksFilterAnswers(r, answer);
    var v := ValidateGrounding(GenerateHypotheses(r, answer));
    if v.selected.Some? {
      ProposalIsAllowListed(v);
    }
  }

  /** Through every node, evidence stays the collected records followed by the pending runbooks. */
  lemma GraphKeepsEvidence(s: AgentState, matches: seq<RunbookMatch>, firstId: Id, answer: ProviderAnswer)
    returns (pending: seq<EvidenceRecord>)
    requires Initial(s)
    ensures PendingRunbooks(pending, firstId, |matches|)
    ensures var f := RunGraph(s, matches, firstId, answer);
      f.evidence == s.evidence + pending && f.runbooks == s.runbooks + pending
  {
    pending := RetrievalAddsPending(s, matches, |matches|, firstId);
    var r := RetrieveRunbooks(s, matches, |matches|, firstId);
    ChecksFilterAnswers(r, answer);
    var v := ValidateGrounding(GenerateHypotheses(r, answer));
    if v.selected.Some? {
      ProposalIsAllowListed(v);
    }
  }

  /** The provider proposed one of the four actions that are allowed. */
  predicate HintIsAllowed(r: LlmResponse) {
    r.action.Some? &&
    (r.action.value == "simulated_restart" || r.action.value == "simulated_rollback" ||
     r.action.value == "simulated_scale" || r.action.value == "create_incident_note")
  }

  /** The accepted proposal is the provider's own when it is allow-listed, parameters and rationale included, if given. */
  lemma ProposalFollowsHint(s: AgentState, matches: seq<RunbookMatch>, firstId: Id, r: LlmResponse)
    requires Initial(s) && Acceptable(Answered(r), s.minConfidence, GroundingEvidence(s, matches, firstId))
    ensures var rec := RunGraph(s, matches, firstId, Answered(r)).recommendation;
      rec.Some? && rec.value.action == (if HintIsAllowed(r) then r.action.value else ROLLBACK) &&
      rec.value.parameters == (
        if HintIsAllowed(r) && r.parameters != map[] then r.parameters
        else map["incident_id" := J.Str(J.IdText(s.incident))]) &&
      (HintIsAllowed(r) && r.rationale.Some? && r.rationale.value != "" ==> rec.value.rationale == r.rationale.value)
  {
    var pending := RetrievalAddsPending(s, matches, |matches|, firstId);
    var after := RetrieveRunbooks(s, matches, |matches|, firstId);
    ChecksFilterAnswers(after, Answered(r));
    var v := ValidateGrounding(GenerateHypotheses(after, Answered(r)));
    ProposalIsAllowListed(v);
    hide RetrieveRunbooks, GenerateHypotheses, ValidateGrounding, GroundingEvidence, AllCited;
  }

  /** A confidence that is a number, and at or above the threshold. */
  predicate Reaches(confidence: Float, minConfidence: real) {
    (confidence.Infinite? && confidence.positive) || (confidence.Finite? && minConfidence <= confidence.value)
  }

  /** What the `<` test lets through is a number that reaches the threshold, or NaN. */
  lemma ThresholdHoldsExceptNaN(confidence: Float, minConfidence: real)
    ensures !LessThan(confidence, Finite(minConfidence)) <==> confidence.NaN? || Reaches(confidence, minConfidence)
  {}

  /** A completed run keeps its promise on the confidence exactly when the provider answered with a number. */
  lemma CompletedReachesThresholdExactly(
    s: AgentState, matches: seq<RunbookMatch>, firstId: Id, answer: ProviderAnswer)
    requires Initial(s) && RunGraph(s, matches, firstId, answer).status == GraphCompleted
    ensures answer.Answered?
    ensures var f := RunGraph(s, matches, firstId, answer);
      f.selected.Some? && f.selected.value.confidence == answer.response.confidence &&
      (Reaches(f.selected.value.confidence, s.minConfidence) <==> !answer.response.confidence.NaN?)
  {
    GraphEnds(s, matches, firstId, answer);
    hide RunGraph, GroundingEvidence, AllCited;
    if answer.Answered? {
      ThresholdHoldsExceptNaN(answer.response.confidence, s.minConfidence);
    }
  }

  /** An answer that completes a run although its confidence is no number at all. */
  lemma NaNConfidenceCompletes(s: AgentState, e: EvidenceRecord)
    requires Initial(s) && s.evidence == [e]
    ensures var answer := Answered(LlmResponse(
        Some("cause"), Some("summary"), NaN, [J.IdText(e.id)], None, map[], None));
      EndsCompleted(RunGraph(s, [], 0, answer))
  {
    var answer := Answered(LlmResponse(Some("cause"), Some("summary"), NaN, [J.IdText(e.id)], None, map[], None));
    assert GroundingEvidence(s, [], 0) == [e];
    assert J.IdText(e.id) in IdTexts([e]);
    GraphEnds(s, [], 0, answer);
  }
}
