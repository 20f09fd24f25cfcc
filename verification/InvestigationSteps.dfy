/** Preservation of the invariant by collection and by the whole investigation request. */
module InvestigationSteps {
  import opened Base
  import opened Schema
  import opened Correlation
  import opened Investigation
  import opened Gate
  import opened Provenance
  import opened Collection
  import opened Soundness
  import opened CaseSteps
  import opened ApprovalSteps
  import opened Agent
  import opened Orchestrator
  import J = Json

  /******* Collection *******/

  lemma SourcePreserves(p: Pass, run: Id, s: Source, hash: Hash, w: int, now: int)
    requires Sound(p.tables, hash, w, now) && run in p.tables.runs
    ensures Sound(CollectSource(p, run, s).tables, hash, w, now)
  {
    hide Sound;
    match s.attempt
    case Raised =>
    case ConnectorFailed(_) => ToolCallPreserves(p.tables, hash, w, now, run, s.kind, false);
    case Fetched =>
      var called := RecordToolCall(p.tables, run, s.kind, true);
      ToolCallPreserves(p.tables, hash, w, now, run, s.kind, true);
      EvidencePreserves(called.tables, hash, w, now, run, Some(called.value), s.kind, s.name);
  }

  lemma {:induction false} SourcesPreserve(t: Tables, run: Id, sources: seq<Source>, n: nat, hash: Hash, w: int, now: int)
    requires Sound(t, hash, w, now) && run in t.runs && n <= |sources|
    ensures Sound(CollectSources(t, run, sources, n).tables, hash, w, now)
  {
    hide Sound, CollectSource;
    if n > 0 {
      SourcesPreserve(t, run, sources, n - 1, hash, w, now);
      SourcePreserves(CollectSources(t, run, sources, n - 1), run, sources[n - 1], hash, w, now);
    }
  }

  /** Collected or interrupted, what collection commits is sound, and the run is one of the incident. */
  lemma CollectPreserves(
    t: Tables, i: Id, req: CollectRequest, sources: seq<Source>, hash: Hash, w: int, now: int)
    requires Sound(t, hash, w, now)
    ensures match CollectIncidentEvidence(t, i, req, sources, now)
      case NotCollected(_) => true
      case Interrupted(u) => Sound(u, hash, w, now)
      case Collected(u, r) => Sound(u, hash, w, now) && u.runs[r.run].incident == i
  {
    hide Sound, CollectSources;
    if i in t.incidents && ServiceExists(t, t.incidents[i].service) {
      var (start, end) := Window(t.incidents[i].startedAt, req, now);
      var run := t.nextId;
      var begun := StartRun(t, i, now);
      var p := CollectSources(begun, run, QueriedAll(sources, start, end), |sources|);
      StartRunPreserves(t, i, hash, w, now);
      SourcesPreserve(begun, run, QueriedAll(sources, start, end), |sources|, hash, w, now);
      FinishRunPreserves(p.tables, run, if p.evidence != [] then RunCompleted else RunInsufficient, hash, w, now);
    }
  }

  /** In a sound store only a missing incident stops collection before it starts. */
  lemma CollectStartsExactly(t: Tables, i: Id, req: CollectRequest, sources: seq<Source>, now: int)
    requires ServicesKnown(t)
    ensures CollectIncidentEvidence(t, i, req, sources, now).NotCollected? <==> i !in t.incidents
  {
    hide CollectSources;
    if i in t.incidents {
      assert KnownService(t, t.incidents[i].service);
    }
  }

  /** Some source raises, or there is one to be asked for a window that ends before the incident starts. */
  ghost predicate SomeSourceRaises(t: Tables, i: Id, sources: seq<Source>, end: int)
    requires i in t.incidents
  {
    exists k :: 0 <= k < |sources| && (end < t.incidents[i].startedAt || sources[k].attempt.Raised?)
  }

  /** A pass is interrupted exactly by a window that ends too early, or a source that raises. */
  lemma InterruptedExactly(t: Tables, i: Id, req: CollectRequest, sources: seq<Source>, now: int)
    requires i in t.incidents && ServicesKnown(t)
    ensures CollectIncidentEvidence(t, i, req, sources, now).Interrupted? <==>
      SomeSourceRaises(t, i, sources, Window(t.incidents[i].startedAt, req, now).1)
  {
    hide CollectSources;
    assert KnownService(t, t.incidents[i].service);
    var (start, end) := Window(t.incidents[i].startedAt, req, now);
    WindowBounds(t.incidents[i].startedAt, req, now);
    var queried := QueriedAll(sources, start, end);
    RaisedExactly(StartRun(t, i, now), t.nextId, queried, |sources|);
    if SomeSourceRaises(t, i, sources, end) {
      var k :| 0 <= k < |sources| && (end < t.incidents[i].startedAt || sources[k].attempt.Raised?);
      assert queried[k].attempt.Raised?;
    }
    if k :| 0 <= k < |sources| && queried[k].attempt.Raised? {
      assert end < t.incidents[i].startedAt || sources[k].attempt.Raised?;
    }
  }

  lemma NewRunIsUnused(t: Tables, i: Id, hash: Hash, w: int, now: int)
    requires Sound(t, hash, w, now) && i in t.incidents
    ensures UnusedRun(StartRun(t, i, now), t.nextId)
  {
    hide Correlated, Lifecycle;
    var begun := StartRun(t, i, now);
    forall c | c in t.toolCalls ensures t.toolCalls[c].run != t.nextId {
      assert ToolCallFits(t, t.toolCalls[c]);
    }
    forall e | e in t.evidence ensures t.evidence[e].run != t.nextId {
      assert EvidenceFits(t, t.evidence[e]);
    }
  }

  /** What a collection that was not interrupted leaves behind, for any sources and failures. */
  ghost predicate Conserved(u: Tables, r: CollectResponse, sources: seq<Source>) {
    && |r.results| == |sources|
    && (forall k :: 0 <= k < |sources| ==> ReadMatches(u, r.run, sources[k], r.results[k]))
    && (forall j, k :: 0 <= j < k < |r.results| ==> r.results[j].toolCall < r.results[k].toolCall)
    && CallsOfRun(u, r.run) == (set c | c in CallsOf(r.results))
    && r.evidence == EvidenceOf(r.results)
    && EvidenceOfRun(u, r.run) == (set e | e in r.evidence)
    && r.run in u.runs && u.runs[r.run].status == r.status
    && r.status == (if EvidenceOfRun(u, r.run) != {} then RunCompleted else RunInsufficient)
  }

  lemma FinishedLedger(run: Id, sources: seq<Source>, p: Pass, now: int, r: CollectResponse)
    requires run in p.tables.runs && Ledger(run, sources, p) && |p.results| == |sources|
    requires r.run == run && r.results == p.results && r.evidence == p.evidence
    requires r.status == if p.evidence != [] then RunCompleted else RunInsufficient
    ensures Conserved(FinishRun(p.tables, run, r.status, now), r, sources)
  {
    var u := FinishRun(p.tables, run, r.status, now);
    assert u.runs[run].incident == p.tables.runs[run].incident;
    forall k | 0 <= k < |sources| ensures ReadMatches(u, run, sources[k], r.results[k]) {
      assert ReadMatches(p.tables, run, sources[k], p.results[k]);
    }
    assert p.evidence != [] ==> p.evidence[0] in EvidenceOfRun(p.tables, run);
    assert EvidenceOfRun(u, run) == EvidenceOfRun(p.tables, run);
    assert CallsOfRun(u, run) == CallsOfRun(p.tables, run);
  }

  /** One tool call per source in order, one evidence row per success, COMPLETED exactly with evidence. */
  lemma CollectionConserves(
    t: Tables, i: Id, req: CollectRequest, sources: seq<Source>, hash: Hash, w: int, now: int)
    requires Sound(t, hash, w, now)
    requires CollectIncidentEvidence(t, i, req, sources, now).Collected?
    ensures var result := CollectIncidentEvidence(t, i, req, sources, now);
      Conserved(result.tables, result.response, sources) &&
      result.tables.runs[result.response.run].incident == i
  {
    hide Sound, CollectSources, Ledger, UnusedRun, Conserved;
    var (start, end) := Window(t.incidents[i].startedAt, req, now);
    var queried := QueriedAll(sources, start, end);
    var begun, run := StartRun(t, i, now), t.nextId;
    var p := CollectSources(begun, run, queried, |sources|);
    NewRunIsUnused(t, i, hash, w, now);
    assert run in begun.runs && begun.runs[run].incident == i;
    CollectionIsConserved(begun, run, queried, |sources|);
    RaisedExactly(begun, run, queried, |sources|);
    assert queried == sources by {
      if |sources| > 0 { assert !queried[0].attempt.Raised?; }
    }
    LedgerBounds(run, queried, p);
    FinishedLedger(run, sources, p, now, CollectIncidentEvidence(t, i, req, sources, now).response);
  }

  /** A pass that raised stopped at the first source that raises, after reading all sources before it. */
  lemma {:induction false} StopsAtFirstRaised(t: Tables, run: Id, sources: seq<Source>, n: nat)
    requires UnusedRun(t, run) && n <= |sources| && CollectSources(t, run, sources, n).raised
    ensures var m := |CollectSources(t, run, sources, n).results|;
      m < n && sources[m].attempt.Raised? && forall k :: 0 <= k < m ==> !sources[k].attempt.Raised?
  {
    hide Ledger, KeepsRows;
    var before := CollectSources(t, run, sources, n - 1);
    if before.raised {
      StopsAtFirstRaised(t, run, sources, n - 1);
    } else {
      CollectionIsConserved(t, run, sources, n - 1);
      RaisedExactly(t, run, sources, n - 1);
    }
  }

  /** A run that was never finished, with the rows of the sources it had read. */
  ghost predicate LeftRunning(u: Tables, run: Id, i: Id, sources: seq<Source>, results: seq<SourceRead>) {
    && run in u.runs && u.runs[run].incident == i && u.runs[run].status == RunRunning && u.runs[run].finishedAt.None?
    && |results| < |sources|
    && (forall k :: 0 <= k < |results| ==> ReadMatches(u, run, sources[k], results[k]))
    && CallsOfRun(u, run) == (set c | c in CallsOf(results))
    && EvidenceOfRun(u, run) == (set e | e in EvidenceOf(results))
  }

  lemma LedgerLeavesRunning(run: Id, i: Id, sources: seq<Source>, queried: seq<Source>, p: Pass)
    requires Ledger(run, queried, p) && |queried| == |sources| && |p.results| < |sources|
    requires forall k :: 0 <= k < |p.results| ==> queried[k] == sources[k]
    requires run in p.tables.runs && p.tables.runs[run].incident == i
    requires p.tables.runs[run].status == RunRunning && p.tables.runs[run].finishedAt.None?
    ensures LeftRunning(p.tables, run, i, sources, p.results)
  {}

  lemma StartedRunIsRunning(t: Tables, i: Id, now: int)
    requires i in t.incidents
    ensures StartRun(t, i, now).runs == t.runs[t.nextId := AgentRun(i, RunRunning, now, Some(now), None)]
  {}

  /** An interrupted collection leaves its new run running, with the rows of exactly the sources before the one that raised. */
  lemma InterruptedLeavesRunning(
    t: Tables, i: Id, req: CollectRequest, sources: seq<Source>, hash: Hash, w: int, now: int)
    returns (results: seq<SourceRead>)
    requires Sound(t, hash, w, now)
    requires CollectIncidentEvidence(t, i, req, sources, now).Interrupted?
    ensures LeftRunning(CollectIncidentEvidence(t, i, req, sources, now).tables, t.nextId, i, sources, results)
    ensures var (start, end) := Window(t.incidents[i].startedAt, req, now);
      Queried(sources[|results|], start, end).attempt.Raised? &&
      forall k :: 0 <= k < |results| ==> !Queried(sources[k], start, end).attempt.Raised?
  {
    hide Sound, CollectSources, Ledger, KeepsRows, UnusedRun, StartRun, LeftRunning;
    var (start, end) := Window(t.incidents[i].startedAt, req, now);
    var queried := QueriedAll(sources, start, end);
    var begun, run := StartRun(t, i, now), t.nextId;
    StartedRunIsRunning(t, i, now);
    var p := CollectSources(begun, run, queried, |sources|);
    results := p.results;
    NewRunIsUnused(t, i, hash, w, now);
    CollectionIsConserved(begun, run, queried, |sources|);
    StopsAtFirstRaised(begun, run, queried, |sources|);
    forall k | 0 <= k < |results|
      ensures !Queried(sources[k], start, end).attempt.Raised? && queried[k] == sources[k]
    {
      assert !queried[k].attempt.Raised?;
    }
    LedgerLeavesRunning(run, i, sources, queried, p);
  }

  /******* Runbooks *******/

  lemma RunbookAdds(t: Tables, i: Id, run: Id, r: EvidenceRecord, hash: Hash, now: int)
    requires RecordIdsBelow(t) && OneApprovalEach(t) && run in t.runs && t.runs[run].incident == i
    requires r.id !in t.evidence
    ensures Adds(t, StoreRunbook(t, i, run, r), hash, now)
  {
    var t' := StoreRunbook(t, i, run, r);
    RunbookFits(t, t', i, run, r, hash, now);
  }

  lemma RunbookFits(t: Tables, t': Tables, i: Id, run: Id, r: EvidenceRecord, hash: Hash, now: int)
    requires RecordIdsBelow(t) && OneApprovalEach(t) && run in t.runs && t.runs[run].incident == i
    requires t'.nextId > r.id && t'.nextId >= t.nextId
    requires t' == t.(evidence := t.evidence[r.id := Evidence(i, run, None, Runbook, r.name)], nextId := t'.nextId)
    ensures NewRowsFit(t, t', hash, now)
  {}

  lemma RunbookPreserves(t: Tables, i: Id, run: Id, r: EvidenceRecord, hash: Hash, w: int, now: int)
    requires Sound(t, hash, w, now) && run in t.runs && t.runs[run].incident == i
    ensures Sound(StoreRunbook(t, i, run, r), hash, w, now)
  {
    hide Correlated, Lifecycle, Adds;
    if r.id !in t.evidence {
      RunbookAdds(t, i, run, r, hash, now);
      AddingRecordsPreserves(t, StoreRunbook(t, i, run, r), hash, w, now);
    }
  }

  lemma {:induction false} RunbooksPreserve(
    t: Tables, i: Id, run: Id, records: seq<EvidenceRecord>, n: nat, hash: Hash, w: int, now: int)
    requires Sound(t, hash, w, now) && run in t.runs && t.runs[run].incident == i && n <= |records|
    ensures Sound(StoreRunbooks(t, i, run, records, n), hash, w, now)
  {
    hide Sound, StoreRunbook;
    if n > 0 {
      RunbooksPreserve(t, i, run, records, n - 1, hash, w, now);
      RunbookPreserves(StoreRunbooks(t, i, run, records, n - 1), i, run, records[n - 1], hash, w, now);
    }
  }

  /******* Findings *******/

  /** The graph's proposal can be stored: a draft grounded in the run, and an allow-listed action. */
  ghost predicate Storable(t: Tables, run: Id, f: AgentState) {
    && f.selected.Some? && CitationsInRun(t, run, ParsedCitations(f.selected.value.cited))
    && f.recommendation.Some? && f.recommendation.value.action in ALLOWED_ACTIONS
  }

  /** The payload validation of the persistence schemas. */
  predicate PayloadsValid(f: AgentState) {
    f.selected.Some? && f.recommendation.Some? &&
    ValidHypothesis(HypothesisFrom(f.selected.value)) &&
    ValidRecommendation(RecommendationFrom(f.recommendation.value, 0))
  }

  lemma AskPreserves(
    t: Tables, hash: Hash, auto: bool, d: Option<RecommendationDraft>, rec: Option<Id>, w: int, now: int, choose: RowChoice)
    requires Sound(t, hash, w, now)
    requires rec.Some? ==> rec.value in t.recommendations
    ensures AskApproval(t, hash, auto, d, rec, now, choose).Done?
    ensures Sound(AskApproval(t, hash, auto, d, rec, now, choose).tables, hash, w, now)
  {
    if rec.Some? && auto && d.Some? && d.value.requiresApproval {
      RequestSucceeds(t, hash, rec.value, w, now, choose);
    }
  }

  lemma RequestSucceeds(t: Tables, hash: Hash, rec: Id, w: int, now: int, choose: RowChoice)
    requires Sound(t, hash, w, now) && rec in t.recommendations
    ensures RequestApproval(t, hash, rec, now, choose).Done?
    ensures Sound(RequestApproval(t, hash, rec, now, choose).tables, hash, w, now)
  {
    hide Correlated, Lifecycle, RequestApproval;
    RecommendationPlaced(t, hash, now, rec);
    RequestCases(t, hash, rec, now, choose);
    RequestPreserves(t, hash, rec, w, now, choose);
  }

  /** Storable findings are stored exactly when their payloads are valid, and keep the store sound. */
  lemma FindingsAreStored(
    t: Tables, hash: Hash, run: Id, f: AgentState, auto: bool, w: int, now: int, choose: RowChoice)
    requires Sound(t, hash, w, now) && run in t.runs && Storable(t, run, f)
    ensures var result := StoreFindings(t, hash, run, f, auto, now, choose);
      (result.Done? <==> PayloadsValid(f)) && (result.Done? ==> Sound(result.tables, hash, w, now))
  {
    hide Sound, RequestApproval, CitationsInRun, ParsedCitations, ValidRecommendation, ValidHypothesis;
    var payload := HypothesisFrom(f.selected.value);
    var proposal := RecommendationFrom(f.recommendation.value, t.nextId);
    ProposalValidity(f.recommendation.value, 0, t.nextId);
    if ValidHypothesis(payload) {
      GroundedHypothesisIsRecorded(t, run, payload);
      if ValidRecommendation(proposal) {
        hide RecordHypothesis, RecordRecommendation, FinishRun, AskApproval;
        var u, v := BothPreserve(t, run, payload, proposal, hash, w, now);
        FinishRunPreserves(v, run, RunCompleted, hash, w, now);
        FinishKeepsRecommendations(v, run, now);
        AskPreserves(FinishRun(v, run, RunCompleted, now), hash, auto, f.recommendation, Some(u.nextId), w, now, choose);
      }
    }
  }

  lemma ProposalValidity(d: RecommendationDraft, h: Id, g: Id)
    ensures ValidRecommendation(RecommendationFrom(d, h)) <==> ValidRecommendation(RecommendationFrom(d, g))
  {}

  lemma FinishKeepsRecommendations(t: Tables, run: Id, now: int)
    requires run in t.runs
    ensures FinishRun(t, run, RunCompleted, now).recommendations == t.recommendations
  {}

  /******* The whole request *******/

  lemma HandOverPreserves(t: Tables, i: Id, run: Id, hash: Hash, w: int, now: int)
    requires Sound(t, hash, w, now) && i in t.incidents && run in t.runs && t.runs[run].incident == i
    ensures Sound(HandOver(t, i, run, now), hash, w, now)
  {
    hide Correlated, Lifecycle, MarkAnalyzing;
    assert RunFits(t, t.runs[run], now);
    var row := t.runs[run];
    var running := row.(status := RunRunning, startedAt := if row.startedAt.Some? then row.startedAt else Some(now));
    SetRunPreserves(t, run, running, hash, w, now);
    var taken := SetRun(t, run, running);
    assert taken.runs[run].incident == i;
    assert HasRun(taken, i);
    MarkAnalyzingPreserves(taken, i, hash, w, now);
  }

  lemma HandOverKeepsRows(t: Tables, i: Id, run: Id, now: int)
    requires i in t.incidents && run in t.runs
    ensures var taken := HandOver(t, i, run, now);
      taken.runs.Keys == t.runs.Keys &&
      taken.runs[run].incident == t.runs[run].incident && i in taken.incidents
  {}

  lemma LoadedAreRows(t: Tables, run: Id, evidence: seq<Id>)
    requires forall e :: e in evidence ==> e in t.evidence && t.evidence[e].run == run
    ensures RecordsAreRows(t, run, LoadEvidence(t, evidence))
  {
    var loaded := LoadEvidence(t, evidence);
    forall k | 0 <= k < |loaded| ensures loaded[k].id in t.evidence && t.evidence[loaded[k].id].run == run {
      assert loaded[k].id == evidence[k] && evidence[k] in evidence;
    }
  }

  /** Rows of t that are kept in u, followed by rows of u. */
  lemma RowsJoin(t: Tables, u: Tables, run: Id, a: seq<EvidenceRecord>, b: seq<EvidenceRecord>)
    requires RecordsAreRows(t, run, a) && RecordsAreRows(u, run, b)
    requires forall e :: e in t.evidence ==> e in u.evidence && u.evidence[e] == t.evidence[e]
    ensures RecordsAreRows(u, run, a + b)
  {}

  /** What the grounding check sees is what the run has stored once the runbooks are in. */
  lemma GroundsAreStored(
    t: Tables, i: Id, run: Id, evidence: seq<Id>, req: InvestigateRequest, env: Surroundings)
    requires forall e :: e in t.evidence ==> e < t.nextId
    requires forall e :: e in evidence ==> e in t.evidence && t.evidence[e].run == run
    ensures var f := GraphOf(t, i, evidence, req, env);
      RecordsAreRows(StoreRunbooks(t, i, run, f.runbooks, |f.runbooks|), run, f.evidence)
  {
    hide RunGraph, LoadEvidence, RecordsAreRows, StoreRunbooks;
    var loaded := LoadEvidence(t, evidence);
    var start := InitialState(i, req.minConfidence, loaded);
    var f := GraphOf(t, i, evidence, req, env);
    var pending := GraphKeepsEvidence(start, env.runbooks, t.nextId, env.answer);
    assert f.runbooks == pending;
    RunbooksAreStored(t, i, run, pending, |pending|, |env.runbooks|);
    assert pending[..|pending|] == pending;
    LoadedAreRows(t, run, evidence);
    RowsJoin(t, StoreRunbooks(t, i, run, pending, |pending|), run, loaded, pending);
  }

  /** The graph's verdict on an answer, over the evidence it grounds citations in. */
  ghost predicate Accepts(t: Tables, i: Id, evidence: seq<Id>, req: InvestigateRequest, env: Surroundings)
    requires forall e :: e in evidence ==> e in t.evidence
  {
    Acceptable(env.answer, req.minConfidence,
      GroundingEvidence(InitialState(i, req.minConfidence, LoadEvidence(t, evidence)), env.runbooks, t.nextId))
  }

  /** If the in-memory check accepts, the database check on the citations accepts too. */
  lemma GroundingRefinesCitationCheck(
    t: Tables, i: Id, run: Id, evidence: seq<Id>, req: InvestigateRequest, env: Surroundings)
    requires forall e :: e in t.evidence ==> e < t.nextId
    requires forall e :: e in evidence ==> e in t.evidence && t.evidence[e].run == run
    ensures var f := GraphOf(t, i, evidence, req, env);
      var stored := StoreRunbooks(t, i, run, f.runbooks, |f.runbooks|);
      if Accepts(t, i, evidence, req, env) then EndsCompleted(f) && Storable(stored, run, f) else EndsInsufficient(f)
  {
    hide RunGraph, StoreRunbooks, GroundingEvidence, RecordsAreRows, CitationsInRun, Acceptable;
    var start := InitialState(i, req.minConfidence, LoadEvidence(t, evidence));
    GraphEnds(start, env.runbooks, t.nextId, env.answer);
    GroundsAreStored(t, i, run, evidence, req, env);
    var f := GraphOf(t, i, evidence, req, env);
    if Accepts(t, i, evidence, req, env) {
      AcceptedCitationsAreRows(
        StoreRunbooks(t, i, run, f.runbooks, |f.runbooks|), run, f.selected.value.cited, f.evidence);
    }
  }

  lemma OutcomeIsStored(
    t: Tables, hash: Hash, i: Id, run: Id, f: AgentState, auto: bool, w: int, now: int, choose: RowChoice)
    requires Sound(t, hash, w, now) && run in t.runs && t.runs[run].incident == i
    requires EndsInsufficient(f) || (EndsCompleted(f) && Storable(StoreRunbooks(t, i, run, f.runbooks, |f.runbooks|), run, f))
    ensures var result := StoreOutcome(t, hash, i, run, f, auto, now, choose);
      (result.Done? <==> EndsInsufficient(f) || PayloadsValid(f)) &&
      (result.Done? ==> Sound(result.tables, hash, w, now))
  {
    hide Sound, StoreFindings, StoreRunbooks, Storable, PayloadsValid;
    RunbooksPreserve(t, i, run, f.runbooks, |f.runbooks|, hash, w, now);
    var stored := StoreRunbooks(t, i, run, f.runbooks, |f.runbooks|);
    if EndsInsufficient(f) {
      FinishRunPreserves(stored, run, RunInsufficient, hash, w, now);
    } else {
      FindingsAreStored(stored, hash, run, f, auto, w, now, choose);
    }
  }

  /** Texts and confidence the persistence schemas accept. */
  predicate Presentable(r: LlmResponse) {
    && r.rootCause.Some? && !Blank(r.rootCause.value) && |r.rootCause.value| <= 128
    && r.summary.Some? && !Blank(r.summary.value)
    && r.confidence.Finite? && 0.0 <= r.confidence.value <= 1.0
    && (HintIsAllowed(r) && r.rationale.Some? && r.rationale.value != "" ==> !Blank(r.rationale.value))
  }

  lemma AllowedActionsFit(action: string)
    requires action in ALLOWED_ACTIONS
    ensures !Blank(action) && |action| <= 128
  {
    assert action[0] == 's' || action[0] == 'c';
    assert !IsSpace('s') && !IsSpace('c');
  }

  lemma DefaultRationaleFits(s: AgentState)
    ensures !Blank(DefaultRationale(s))
  {
    assert DefaultRationale(s)[0] == 'S' && !IsSpace('S');
  }

  /** The rationale of the proposal, when the draft was selected with this hint. */
  lemma ProposedRationale(v: AgentState, r: LlmResponse)
    requires v.selected.Some? && v.hint == HintOf(r)
    ensures var rec := SafetyCheck(ProposeActions(v)).recommendation;
      rec.Some? && rec.value.action in ALLOWED_ACTIONS && rec.value.rationale ==
        if HintIsAllowed(r) && r.rationale.Some? && r.rationale.value != "" then r.rationale.value else DefaultRationale(v)
  {
    hide DefaultRationale;
  }

  lemma AcceptedGraph(s: AgentState, matches: seq<RunbookMatch>, firstId: Id, r: LlmResponse) returns (v: AgentState)
    requires Initial(s) && Acceptable(Answered(r), s.minConfidence, GroundingEvidence(s, matches, firstId))
    ensures v.selected == Some(DraftOf(r)) && v.hint == HintOf(r)
    ensures RunGraph(s, matches, firstId, Answered(r)) == SafetyCheck(ProposeActions(v))
  {
    var pending := RetrievalAddsPending(s, matches, |matches|, firstId);
    var after := RetrieveRunbooks(s, matches, |matches|, firstId);
    ChecksFilterAnswers(after, Answered(r));
    v := ValidateGrounding(GenerateHypotheses(after, Answered(r)));
  }

  /** For an accepted answer, the payloads are valid exactly when the answer is presentable. */
  lemma AcceptedPayloads(t: Tables, i: Id, evidence: seq<Id>, req: InvestigateRequest, env: Surroundings)
    requires forall e :: e in evidence ==> e in t.evidence
    requires Accepts(t, i, evidence, req, env)
    ensures PayloadsValid(GraphOf(t, i, evidence, req, env)) <==> Presentable(env.answer.response)
  {
    hide RunGraph, DefaultRationale, ProposeActions, SafetyCheck, GroundingEvidence, Blank;
    var s := InitialState(i, req.minConfidence, LoadEvidence(t, evidence));
    var r := env.answer.response;
    var v := AcceptedGraph(s, env.runbooks, t.nextId, r);
    ProposedRationale(v, r);
    DefaultRationaleFits(v);
    var f := GraphOf(t, i, evidence, req, env);
    GraphEnds(s, env.runbooks, t.nextId, env.answer);
    ProposalIsAllowListed(v);
    AllowedActionsFit(f.recommendation.value.action);
    CitedTextParses(r.cited, GroundingEvidence(s, env.runbooks, t.nextId));
  }

  lemma CitedTextParses(cited: seq<string>, evidence: seq<EvidenceRecord>)
    requires cited != [] && AllCited(cited, evidence)
    ensures ParsedCitations(cited) != {}
  {
    assert cited[0] in cited && cited[0] in IdTexts(evidence);
    var e :| e in evidence && J.IdText(e.id) == cited[0];
    ParseIdInvertsIdText(e.id);
    assert e.id in ParsedCitations(cited);
  }

  lemma EvidenceIdsBelow(t: Tables, hash: Hash, w: int, now: int)
    requires Sound(t, hash, w, now)
    ensures forall e :: e in t.evidence ==> e < t.nextId
  {
    hide Correlated, Lifecycle;
  }

  /** After collection: the request crashes exactly on an accepted answer whose texts or confidence the schemas refuse. */
  lemma ConcludePreserves(
    t: Tables, hash: Hash, i: Id, run: Id, evidence: seq<Id>, req: InvestigateRequest, env: Surroundings, w: int)
    requires Sound(t, hash, w, env.now) && i in t.incidents && run in t.runs && t.runs[run].incident == i
    requires forall e :: e in evidence ==> e in t.evidence && t.evidence[e].run == run
    ensures var result := Conclude(t, hash, i, run, evidence, req, env);
      var taken := HandOver(t, i, run, env.now);
      (result.Crashed? <==> Accepts(taken, i, evidence, req, env) && !Presentable(env.answer.response)) &&
      (result.Crashed? ==> result.tables == t) &&
      (result.Investigated? ==> Sound(result.tables, hash, w, env.now)) && !result.NotInvestigated?
  {
    hide Sound, HandOver, StoreOutcome, GraphOf, Acceptable, GroundingEvidence, Storable, PayloadsValid, StoreRunbooks,
      Presentable;
    HandOverPreserves(t, i, run, hash, w, env.now);
    EvidenceIdsBelow(HandOver(t, i, run, env.now), hash, w, env.now);
    HandOverKeepsRows(t, i, run, env.now);
    var taken := HandOver(t, i, run, env.now);
    var f := GraphOf(taken, i, evidence, req, env);
    GroundingRefinesCitationCheck(taken, i, run, evidence, req, env);
    OutcomeIsStored(taken, hash, i, run, f, req.autoRequestApproval, w, env.now, env.choose);
    if Accepts(taken, i, evidence, req, env) {
      AcceptedPayloads(taken, i, evidence, req, env);
    }
  }

  /******* What a request answers *******/

  /** A stored proposal: its hypothesis and its recommendation, in the run. */
  predicate Stores(u: Tables, run: Id, reply: InvestigateReply, d: HypothesisDraft, rec: RecommendationDraft) {
    && reply.hypothesis.Some? && reply.hypothesis.value in u.hypotheses
    && u.hypotheses[reply.hypothesis.value] == Hypothesis(run, d.rootCause, d.summary, d.confidence)
    && reply.recommendation.Some? && reply.recommendation.value in u.recommendations
    && u.recommendations[reply.recommendation.value] ==
         Recommendation(run, reply.hypothesis.value, rec.action, rec.parameters)
  }

  lemma RequestKeepsFindings(t: Tables, hash: Hash, rec: Id, now: int, choose: RowChoice)
    requires RequestApproval(t, hash, rec, now, choose).Done?
    ensures var u := RequestApproval(t, hash, rec, now, choose).tables;
      u.hypotheses == t.hypotheses && u.recommendations == t.recommendations
  {
    hide PendingRow, ApprovalsFor, FirstRow;
  }

  lemma AskingKeepsFindings(
    t: Tables, hash: Hash, auto: bool, d: RecommendationDraft, rec: Id, now: int, choose: RowChoice)
    requires d.requiresApproval && AskApproval(t, hash, auto, Some(d), Some(rec), now, choose).Done?
    ensures var asked := AskApproval(t, hash, auto, Some(d), Some(rec), now, choose);
      asked.tables.hypotheses == t.hypotheses && asked.tables.recommendations == t.recommendations &&
      (asked.value.Some? <==> auto)
  {
    hide RequestApproval;
    if auto {
      RequestKeepsFindings(t, hash, rec, now, choose);
    }
  }

  lemma FinishingKeepsFindings(t: Tables, run: Id, now: int)
    requires run in t.runs
    ensures var u := FinishRun(t, run, RunCompleted, now);
      u.hypotheses == t.hypotheses && u.recommendations == t.recommendations
  {}

  lemma HypothesisRow(t: Tables, run: Id, h: HypothesisCreate)
    requires ValidHypothesis(h) && RecordHypothesis(t, run, h).Done?
    ensures var made := RecordHypothesis(t, run, h);
      made.value in made.tables.hypotheses &&
      made.tables.hypotheses[made.value] == Hypothesis(run, h.rootCause, h.summary, h.confidence)
  {
    hide ValidHypothesis, CitationsInRun;
  }

  lemma ProposalRow(t: Tables, run: Id, h: Id, d: RecommendationDraft)
    requires RecordProposal(t, run, h, Some(d)).Done?
    ensures var made := RecordProposal(t, run, h, Some(d));
      made.value.Some? && made.value.value in made.tables.recommendations &&
      made.tables.recommendations[made.value.value] == Recommendation(run, h, d.action, d.parameters) &&
      made.tables.hypotheses == t.hypotheses && made.tables.runs == t.runs
  {
    hide ValidRecommendation;
  }

  /** Stored findings are all answered, with an approval exactly when the request asked for one. */
  lemma FindingsAreAnswered(
    t: Tables, hash: Hash, run: Id, f: AgentState, auto: bool, now: int, choose: RowChoice)
    requires f.selected.Some? && f.recommendation.Some? && f.recommendation.value.requiresApproval && run in t.runs
    requires StoreFindings(t, hash, run, f, auto, now, choose).Done?
    ensures var result := StoreFindings(t, hash, run, f, auto, now, choose);
      Stores(result.tables, run, result.value, f.selected.value, f.recommendation.value) &&
      (result.value.approval.Some? <==> auto)
  {
    hide ValidHypothesis, RecordHypothesis, RecordProposal, FinishRun, AskApproval;
    var payload := HypothesisFrom(f.selected.value);
    var u := RecordHypothesis(t, run, payload);
    HypothesisRow(t, run, payload);
    var v := RecordProposal(u.tables, run, u.value, f.recommendation);
    ProposalRow(u.tables, run, u.value, f.recommendation.value);
    FinishingKeepsFindings(v.tables, run, now);
    AskingKeepsFindings(
      FinishRun(v.tables, run, RunCompleted, now), hash, auto, f.recommendation.value, v.value.value, now, choose);
  }

  lemma OutcomeIsAnswered(
    t: Tables, hash: Hash, i: Id, run: Id, f: AgentState, auto: bool, now: int, choose: RowChoice)
    requires run in t.runs && (EndsInsufficient(f) || EndsCompleted(f))
    requires StoreOutcome(t, hash, i, run, f, auto, now, choose).Done?
    ensures var result := StoreOutcome(t, hash, i, run, f, auto, now, choose);
      if EndsInsufficient(f) then result.value == InvestigateReply(run, None, None, None)
      else
        Stores(result.tables, run, result.value, f.selected.value, f.recommendation.value) &&
        (result.value.approval.Some? <==> auto)
  {
    hide StoreRunbooks, StoreFindings, FinishRun, Stores;
    var stored := StoreRunbooks(t, i, run, f.runbooks, |f.runbooks|);
    if !EndsInsufficient(f) {
      FindingsAreAnswered(stored, hash, run, f, auto, now, choose);
    }
  }

  /** The hypothesis, the action and its parameters that an accepted answer leaves in the store. */
  predicate StoresAnswer(
    u: Tables, i: Id, run: Id, reply: InvestigateReply, r: LlmResponse, minConfidence: real)
  {
    && r.rootCause.Some? && r.summary.Some? && Reaches(r.confidence, minConfidence)
    && reply.hypothesis.Some? && reply.hypothesis.value in u.hypotheses
    && u.hypotheses[reply.hypothesis.value] == Hypothesis(run, r.rootCause.value, r.summary.value, r.confidence)
    && reply.recommendation.Some? && reply.recommendation.value in u.recommendations
    && var rec := u.recommendations[reply.recommendation.value];
       rec.run == run && rec.hypothesis == reply.hypothesis.value &&
       rec.action == (if HintIsAllowed(r) then r.action.value else ROLLBACK) &&
       rec.parameters == ProposedParameters(i, r)
  }

  /** The provider's parameters if it proposed an allowed action with some, and else the incident alone. */
  function ProposedParameters(i: Id, r: LlmResponse): map<string, J.Json> {
    if HintIsAllowed(r) && r.parameters != map[] then r.parameters else map["incident_id" := J.Str(J.IdText(i))]
  }

  lemma PresentableReaches(r: LlmResponse, minConfidence: real)
    requires Presentable(r) && !LessThan(r.confidence, Finite(minConfidence))
    ensures Reaches(r.confidence, minConfidence)
  {
    hide Blank;
  }

  /** What the graph hands over to be stored. */
  lemma GraphAnswers(t: Tables, i: Id, evidence: seq<Id>, req: InvestigateRequest, env: Surroundings)
    requires forall e :: e in evidence ==> e in t.evidence
    ensures var f := GraphOf(t, i, evidence, req, env);
      if Accepts(t, i, evidence, req, env)
      then
        EndsCompleted(f) && env.answer.Answered? && Proposes(f, i, env.answer.response) &&
        !LessThan(env.answer.response.confidence, Finite(req.minConfidence))
      else EndsInsufficient(f)
  {
    hide RunGraph, GroundingEvidence, AllCited, HintIsAllowed;
    var s := InitialState(i, req.minConfidence, LoadEvidence(t, evidence));
    GraphEnds(s, env.runbooks, t.nextId, env.answer);
    if Accepts(t, i, evidence, req, env) {
      AcceptedAction(s, env.runbooks, t.nextId, env.answer.response);
    }
  }

  /** The graph's draft is the answer's, and its action the hinted one or a rollback. */
  predicate Proposes(f: AgentState, i: Id, r: LlmResponse) {
    && r.rootCause.Some? && r.summary.Some? && f.selected == Some(DraftOf(r))
    && f.recommendation.Some? && f.recommendation.value.action == (if HintIsAllowed(r) then r.action.value else ROLLBACK)
    && f.recommendation.value.parameters == ProposedParameters(i, r)
  }

  lemma StoredDraftIsAnswer(
    u: Tables, i: Id, run: Id, reply: InvestigateReply, f: AgentState, r: LlmResponse, minConfidence: real)
    requires Proposes(f, i, r) && Stores(u, run, reply, f.selected.value, f.recommendation.value)
    requires Reaches(r.confidence, minConfidence)
    ensures StoresAnswer(u, i, run, reply, r, minConfidence)
  {
    hide HintIsAllowed;
  }

  /** What a finished investigation answers: a proposal exactly on an accepted answer, an approval if it was wanted. */
  lemma ConcludeAnswers(
    t: Tables, hash: Hash, i: Id, run: Id, evidence: seq<Id>, req: InvestigateRequest, env: Surroundings, w: int)
    requires Sound(t, hash, w, env.now) && i in t.incidents && run in t.runs && t.runs[run].incident == i
    requires forall e :: e in evidence ==> e in t.evidence && t.evidence[e].run == run
    requires Conclude(t, hash, i, run, evidence, req, env).Investigated?
    ensures var result := Conclude(t, hash, i, run, evidence, req, env);
      if Accepts(HandOver(t, i, run, env.now), i, evidence, req, env)
      then
        StoresAnswer(result.tables, i, run, result.reply, env.answer.response, req.minConfidence) &&
        (result.reply.approval.Some? <==> req.autoRequestApproval)
      else result.reply == InvestigateReply(run, None, None, None)
  {
    hide Sound, HandOver, StoreOutcome, GraphOf, Acceptable, GroundingEvidence, EndsInsufficient, EndsCompleted, Stores,
      StoresAnswer, Proposes, Presentable, Reaches, LessThan;
    ConcludePreserves(t, hash, i, run, evidence, req, env, w);
    HandOverKeepsRows(t, i, run, env.now);
    var taken := HandOver(t, i, run, env.now);
    var f := GraphOf(taken, i, evidence, req, env);
    GraphAnswers(taken, i, evidence, req, env);
    CompletedHasDraft(f);
    OutcomeIsAnswered(taken, hash, i, run, f, req.autoRequestApproval, env.now, env.choose);
    if Accepts(taken, i, evidence, req, env) {
      var result := Conclude(t, hash, i, run, evidence, req, env);
      PresentableReaches(env.answer.response, req.minConfidence);
      StoredDraftIsAnswer(result.tables, i, run, result.reply, f, env.answer.response, req.minConfidence);
    }
  }

  lemma CompletedHasDraft(f: AgentState)
    ensures EndsCompleted(f) ==> f.selected.Some? && f.recommendation.Some? && !EndsInsufficient(f)
  {}

  lemma AcceptedAction(s: AgentState, matches: seq<RunbookMatch>, firstId: Id, r: LlmResponse)
    requires Initial(s) && Acceptable(Answered(r), s.minConfidence, GroundingEvidence(s, matches, firstId))
    ensures var rec := RunGraph(s, matches, firstId, Answered(r)).recommendation;
      rec.Some? && rec.value.action == (if HintIsAllowed(r) then r.action.value else ROLLBACK) &&
      rec.value.parameters == ProposedParameters(s.incident, r)
  {
    hide RunGraph, GroundingEvidence;
    ProposalFollowsHint(s, matches, firstId, r);
  }

  lemma ConservedEvidenceIsOfRun(u: Tables, r: CollectResponse, sources: seq<Source>)
    requires Conserved(u, r, sources)
    ensures forall e :: e in r.evidence ==> e in u.evidence && u.evidence[e].run == r.run
  {
    forall e | e in r.evidence ensures e in u.evidence && u.evidence[e].run == r.run {
      assert e in EvidenceOfRun(u, r.run);
    }
  }

  /** Whatever the surroundings do, what the request commits is sound. */
  lemma InvestigatePreserves(
    t: Tables, hash: Hash, i: Id, req: InvestigateRequest, env: Surroundings, w: int)
    requires Sound(t, hash, w, env.now)
    ensures match InvestigateIncident(t, hash, i, req, env)
      case NotInvestigated(_) => true
      case Crashed(u) => Sound(u, hash, w, env.now)
      case Investigated(u, _) => Sound(u, hash, w, env.now)
  {
    hide Sound, CollectIncidentEvidence, Conclude, Conserved;
    if i in t.incidents {
      var collect := CollectRequest(req.lookback, None);
      CollectPreserves(t, i, collect, env.sources, hash, w, env.now);
      match CollectIncidentEvidence(t, i, collect, env.sources, env.now)
      case Collected(u, r) =>
        CollectionConserves(t, i, collect, env.sources, hash, w, env.now);
        ConservedEvidenceIsOfRun(u, r, env.sources);
        ConcludePreserves(u, hash, i, r.run, r.evidence, req, env, w);
      case _ =>
    }
  }
}
