/** The record-writing services of an investigation: runs, tool calls, evidence, hypotheses, proposals. */
module Investigation {
  import opened Base
  import opened Schema
  import J = Json

  datatype Error =
    | IncidentNotFound | ServiceNotFound | RunNotFound | BadToolCall | BadCitation | BadHypothesis | NoCitation
    | InvalidPayload | RecommendationNotFound | NotAllowListed | ApprovalNotFound | AlreadyDecided
    | DecisionTooLate | BadDecision | DigestMismatch | NotApproved | AlreadyExecuted | NotImplemented
    | RecoveryNotVerified | SourceRaised

  /** A service call either updates the session and returns a value, or raises. */
  datatype Outcome<+T> = Done(tables: Tables, value: T) | Refused(error: Error)

  /******* Payload validation *******/

  predicate IsSpace(c: char) {
    var u := c as int;
    9 <= u <= 13 || 28 <= u <= 32 || u == 0x85 || u == 0xA0 || u == 0x1680 || 0x2000 <= u <= 0x200A ||
    u == 0x2028 || u == 0x2029 || u == 0x202F || u == 0x205F || u == 0x3000
  }

  predicate Blank(s: string) {
    forall c :: c in s ==> IsSpace(c)
  }

  /** A confidence the schema and the table constraint accept. */
  predicate IsProbability(f: Float) {
    f.Finite? && 0.0 <= f.value <= 1.0
  }

  /** Repeated citations collapse, so the cited ids form a set. */
  datatype HypothesisCreate = HypothesisCreate(
    rootCause: string, summary: string, confidence: Float, evidence: set<Id>)

  predicate ValidHypothesis(h: HypothesisCreate) {
    !Blank(h.rootCause) && |h.rootCause| <= 128 && !Blank(h.summary) &&
    IsProbability(h.confidence) && h.evidence != {}
  }

  datatype RecommendationCreate = RecommendationCreate(
    hypothesis: Id, action: string, parameters: map<string, J.Json>, rationale: string)

  predicate ValidRecommendation(r: RecommendationCreate) {
    !Blank(r.action) && |r.action| <= 128 && !Blank(r.rationale)
  }

  /******* Services *******/

  function CreateAgentRun(t: Tables, i: Id, now: int): Outcome<Id> {
    if i !in t.incidents then Refused(IncidentNotFound)
    else
      Done(t.(runs := t.runs[t.nextId := AgentRun(i, RunPending, now, None, None)],
              events := t.events + [Event(i, AgentRunCreated(t.nextId))],
              nextId := t.nextId + 1), t.nextId)
  }

  function RecordToolCall(t: Tables, run: Id, source: SourceType, succeeded: bool): Outcome<Id> {
    if run !in t.runs then Refused(RunNotFound)
    else
      Done(t.(toolCalls := t.toolCalls[t.nextId := ToolCall(run, source, succeeded)],
              nextId := t.nextId + 1), t.nextId)
  }

  predicate UsableToolCall(t: Tables, run: Id, call: Option<Id>) {
    call.Some? ==>
      call.value in t.toolCalls && t.toolCalls[call.value].run == run && t.toolCalls[call.value].succeeded
  }

  function RecordEvidence(t: Tables, run: Id, call: Option<Id>, source: SourceType, name: string): Outcome<Id> {
    if run !in t.runs then Refused(RunNotFound)
    else if !UsableToolCall(t, run, call) then Refused(BadToolCall)
    else
      var i := t.runs[run].incident;
      Done(t.(evidence := t.evidence[t.nextId := Evidence(i, run, call, source, name)],
              events := t.events + [Event(i, EvidenceCollected(run, t.nextId))],
              nextId := t.nextId + 1), t.nextId)
  }

  /** Every cited id names evidence of this run. */
  predicate CitationsInRun(t: Tables, run: Id, cited: set<Id>) {
    forall e :: e in cited ==> e in t.evidence && t.evidence[e].run == run
  }

  function RecordHypothesis(t: Tables, run: Id, h: HypothesisCreate): (r: Outcome<Id>)
    requires ValidHypothesis(h)
    ensures r.Done? ==> r.tables.runs == t.runs
  {
    if run !in t.runs then Refused(RunNotFound)
    else if !CitationsInRun(t, run, h.evidence) then Refused(BadCitation)
    else
      Done(t.(hypotheses := t.hypotheses[t.nextId := Hypothesis(run, h.rootCause, h.summary, h.confidence)],
              citations := t.citations + set e | e in h.evidence :: Citation(t.nextId, e, run),
              nextId := t.nextId + 1), t.nextId)
  }

  function RecordRecommendation(t: Tables, run: Id, r: RecommendationCreate): (made: Outcome<Id>)
    requires ValidRecommendation(r)
    ensures made.Done? ==> made.tables.runs == t.runs
  {
    if run !in t.runs then Refused(RunNotFound)
    else if r.hypothesis !in t.hypotheses || t.hypotheses[r.hypothesis].run != run then Refused(BadHypothesis)
    else if !exists c :: c in t.citations && c.hypothesis == r.hypothesis then Refused(NoCitation)
    else
      Done(t.(recommendations := t.recommendations[t.nextId :=
                Recommendation(run, r.hypothesis, r.action, r.parameters)],
              nextId := t.nextId + 1), t.nextId)
  }
}
