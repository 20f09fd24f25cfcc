/**
  The full investigation request: collect, run the agent graph, store what it found, and ask for
  approval. Everything after collection is stored in one transaction.
 */
module Orchestrator {
  import opened Base
  import opened Schema
  import opened Investigation
  import opened Gate
  import opened Collection
  import opened CaseSteps
  import opened Agent
  import J = Json

  /** `minConfidence` is validated to lie in [0, 1]. */
  datatype InvestigateRequest = InvestigateRequest(lookback: nat, minConfidence: real, autoRequestApproval: bool)

  /** What the outside world contributes to one request. */
  datatype Surroundings = Surroundings(
    sources: seq<Source>, runbooks: seq<RunbookMatch>, answer: ProviderAnswer, now: int, choose: RowChoice)

  datatype InvestigateReply = InvestigateReply(
    run: Id, hypothesis: Option<Id>, recommendation: Option<Id>, approval: Option<Id>)

  /** A crashed request leaves behind what collection had committed. */
  datatype InvestigateResult =
    | Investigated(tables: Tables, reply: InvestigateReply)
    | NotInvestigated(error: Error)
    | Crashed(tables: Tables)

  /******* Around the graph *******/

  /** The run's evidence rows in the order they were collected. */
  function LoadEvidence(t: Tables, ids: seq<Id>): seq<EvidenceRecord>
    requires forall e :: e in ids ==> e in t.evidence
  {
    seq(|ids|, k requires 0 <= k < |ids| => EvidenceRecord(ids[k], t.evidence[ids[k]].source, t.evidence[ids[k]].name))
  }

  function InitialState(i: Id, minConfidence: real, evidence: seq<EvidenceRecord>): AgentState {
    AgentState(i, minConfidence, evidence, [], [], None, None, None, Running, false)
  }

  /** A runbook record is stored unless a row with its id exists. */
  function StoreRunbook(t: Tables, i: Id, run: Id, r: EvidenceRecord): Tables {
    if r.id in t.evidence then t
    else t.(evidence := t.evidence[r.id := Evidence(i, run, None, Runbook, r.name)],
            nextId := if t.nextId <= r.id then r.id + 1 else t.nextId)
  }

  function StoreRunbooks(t: Tables, i: Id, run: Id, records: seq<EvidenceRecord>, n: nat): (u: Tables)
    requires n <= |records|
    ensures u.runs == t.runs && u.incidents == t.incidents
  {
    if n == 0 then t else StoreRunbook(StoreRunbooks(t, i, run, records, n - 1), i, run, records[n - 1])
  }

  /** The id whose text was cited; other text is not an id. */
  function ParseId(text: string): Option<Id> {
    if text == "" then None
    else
      var (n, rest) := J.ReadDigits(0, text);
      if rest == "" then Some(n) else None
  }

  function ParsedCitations(cited: seq<string>): set<Id> {
    set c | c in cited && ParseId(c).Some? :: ParseId(c).value
  }

  function HypothesisFrom(d: HypothesisDraft): HypothesisCreate {
    HypothesisCreate(d.rootCause, d.summary, d.confidence, ParsedCitations(d.cited))
  }

  function RecommendationFrom(d: RecommendationDraft, hypothesis: Id): RecommendationCreate {
    RecommendationCreate(hypothesis, d.action, d.parameters, d.rationale)
  }

  /******* Storing the outcome *******/

  /** The recommendation, if there is one; its payload is validated first. */
  function RecordProposal(t: Tables, run: Id, h: Id, d: Option<RecommendationDraft>): Outcome<Option<Id>> {
    if d.None? then Done(t, None)
    else
      var payload := RecommendationFrom(d.value, h);
      if !ValidRecommendation(payload) then Refused(InvalidPayload)
      else
        match RecordRecommendation(t, run, payload)
        case Refused(e) => Refused(e)
        case Done(u, r) => Done(u, Some(r))
  }

  /** Asks for approval when the request wants it and there is a recommendation that needs it. */
  function AskApproval(
    t: Tables, hash: Hash, auto: bool, d: Option<RecommendationDraft>, rec: Option<Id>, now: int, choose: RowChoice)
    : Outcome<Option<Id>>
  {
    if rec.Some? && auto && d.Some? && d.value.requiresApproval then
      match RequestApproval(t, hash, rec.value, now, choose)
      case Refused(e) => Refused(e)
      case Done(u, p) => Done(u, Some(p))
    else Done(t, None)
  }

  /** Stores hypothesis, recommendation, run status and approval of a graph that selected a draft. */
  function StoreFindings(
    t: Tables, hash: Hash, run: Id, f: AgentState, auto: bool, now: int, choose: RowChoice): Outcome<InvestigateReply>
    requires f.selected.Some? && run in t.runs
  {
    var payload := HypothesisFrom(f.selected.value);
    if !ValidHypothesis(payload) then Refused(InvalidPayload)
    else
      match RecordHypothesis(t, run, payload)
      case Refused(e) => Refused(e)
      case Done(u, h) =>
        match RecordProposal(u, run, h, f.recommendation)
        case Refused(e) => Refused(e)
        case Done(v, rec) =>
          match AskApproval(FinishRun(v, run, RunCompleted, now), hash, auto, f.recommendation, rec, now, choose)
          case Refused(e) => Refused(e)
          case Done(x, p) => Done(x, InvestigateReply(run, Some(h), rec, p))
  }

  /** Stores the runbooks the graph retrieved, then its findings or the lack of them. */
  function StoreOutcome(
    t: Tables, hash: Hash, i: Id, run: Id, f: AgentState, auto: bool, now: int, choose: RowChoice)
    : Outcome<InvestigateReply>
    requires run in t.runs
  {
    var stored := StoreRunbooks(t, i, run, f.runbooks, |f.runbooks|);
    if f.status == InsufficientEvidence || f.selected.None? then
      Done(FinishRun(stored, run, RunInsufficient, now), InvestigateReply(run, None, None, None))
    else StoreFindings(stored, hash, run, f, auto, now, choose)
  }

  /** The collected run is taken over by the agent, and the incident is being analysed. */
  function HandOver(t: Tables, i: Id, run: Id, now: int): (u: Tables)
    requires i in t.incidents && run in t.runs
    ensures u.evidence == t.evidence && u.nextId == t.nextId
  {
    var row := t.runs[run];
    MarkAnalyzing(SetRun(t, run, row.(status := RunRunning,
      startedAt := if row.startedAt.Some? then row.startedAt else Some(now))), i)
  }

  function GraphOf(t: Tables, i: Id, evidence: seq<Id>, req: InvestigateRequest, env: Surroundings): AgentState
    requires forall e :: e in evidence ==> e in t.evidence
  {
    RunGraph(InitialState(i, req.minConfidence, LoadEvidence(t, evidence)), env.runbooks, t.nextId, env.answer)
  }

  /** Collection has committed t; everything here is committed together or not at all. */
  function Conclude(
    t: Tables, hash: Hash, i: Id, run: Id, evidence: seq<Id>, req: InvestigateRequest, env: Surroundings)
    : InvestigateResult
    requires i in t.incidents && run in t.runs && forall e :: e in evidence ==> e in t.evidence
  {
    var taken := HandOver(t, i, run, env.now);
    match StoreOutcome(taken, hash, i, run, GraphOf(taken, i, evidence, req, env), req.autoRequestApproval,
                       env.now, env.choose)
    case Refused(_) => Crashed(t)
    case Done(u, reply) => Investigated(u, reply)
  }

  function InvestigateIncident(
    t: Tables, hash: Hash, i: Id, req: InvestigateRequest, env: Surroundings): InvestigateResult
  {
    if i !in t.incidents then NotInvestigated(IncidentNotFound)
    else
      match CollectIncidentEvidence(t, i, CollectRequest(req.lookback, None), env.sources, env.now)
      case NotCollected(e) => NotInvestigated(e)
      case Interrupted(u) => Crashed(u)
      case Collected(u, response) =>
        Conclude(u, hash, i, response.run, response.evidence, req, env)
  }

  /******* The grounding check refines the database check *******/

  lemma ParseIdInvertsIdText(id: Id)
    ensures ParseId(J.IdText(id)) == Some(id)
  {
    J.ReadDigitsInvertsPutNat(id, "");
  }

  /** Every record is a row of this run, with the same id. */
  ghost predicate RecordsAreRows(t: Tables, run: Id, records: seq<EvidenceRecord>) {
    forall k :: 0 <= k < |records| ==> records[k].id in t.evidence && t.evidence[records[k].id].run == run
  }

  /** Text accepted by the in-memory check parses to ids the database check accepts. */
  lemma AcceptedCitationsAreRows(t: Tables, run: Id, cited: seq<string>, evidence: seq<EvidenceRecord>)
    requires AllCited(cited, evidence) && RecordsAreRows(t, run, evidence)
    ensures CitationsInRun(t, run, ParsedCitations(cited))
    ensures cited != [] ==> ParsedCitations(cited) != {}
  {
    forall c | c in cited ensures ParseId(c).Some? && ParseId(c).value in t.evidence && t.evidence[ParseId(c).value].run == run {
      assert c in IdTexts(evidence);
      var e :| e in evidence && J.IdText(e.id) == c;
      ParseIdInvertsIdText(e.id);
    }
    if cited != [] {
      assert cited[0] in cited;
      assert ParseId(cited[0]).value in ParsedCitations(cited);
    }
  }

  /** Storing pending runbooks adds exactly their rows to the run's evidence. */
  lemma {:induction false} RunbooksAreStored(t: Tables, i: Id, run: Id, pending: seq<EvidenceRecord>, n: nat, bound: nat)
    requires n <= |pending| && PendingRunbooks(pending, t.nextId, bound)
    requires forall e :: e in t.evidence ==> e < t.nextId
    ensures var u := StoreRunbooks(t, i, run, pending, n);
      t.nextId <= u.nextId && RecordsAreRows(u, run, pending[..n]) &&
      (forall e :: e in t.evidence ==> e in u.evidence && u.evidence[e] == t.evidence[e]) &&
      (forall e :: e in u.evidence ==> e < u.nextId) &&
      (forall e :: e in u.evidence ==> e in t.evidence || exists k :: 0 <= k < n && pending[k].id == e) &&
      u == t.(evidence := u.evidence, nextId := u.nextId)
  {
    if n > 0 {
      RunbooksAreStored(t, i, run, pending, n - 1, bound);
      var u := StoreRunbooks(t, i, run, pending, n - 1);
      assert pending[..n][..n - 1] == pending[..n - 1];
      assert pending[n - 1].id !in u.evidence by { hide StoreRunbooks; }
      forall k | 0 <= k < n
        ensures pending[..n][k].id in StoreRunbooks(t, i, run, pending, n).evidence
        ensures StoreRunbooks(t, i, run, pending, n).evidence[pending[..n][k].id].run == run
      {
        if k < n - 1 { assert pending[..n - 1][k] == pending[..n][k]; }
      }
    }
  }
}
