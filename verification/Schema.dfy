/**
  The tables of the record store and the rows in them. A `Tables` value is the content of the
  database as one session sees it.
 */
module Schema {
  import opened Base
  import J = Json

  datatype Severity = Low | Medium | High | Critical

  function Rank(s: Severity): nat {
    match s
    case Low => 0
    case Medium => 1
    case High => 2
    case Critical => 3
  }

  datatype IncidentStatus =
    | New | CollectingEvidence | Analyzing | NeedsApproval | Approved | Rejected
    | Executing | Resolved | Completed | Failed

  predicate Terminal(s: IncidentStatus) {
    s == Resolved || s == Completed || s == IncidentStatus.Rejected || s == IncidentStatus.Failed
  }

  datatype RunStatus = RunPending | RunRunning | RunCompleted | RunFailed | RunInsufficient
  datatype SourceType = Metric | Log | Deployment | Runbook
  datatype ApprovalStatus = Pending | Approved | Rejected
  datatype ExecutionStatus = Succeeded | Failed

  /** A Python float: the confidence and threshold values may be anything a JSON reader accepts. */
  datatype Float = Finite(value: real) | Infinite(positive: bool) | NaN

  /** The `<` of Python floats; every comparison with NaN is false. */
  predicate LessThan(a: Float, b: Float) {
    match (a, b)
    case (Finite(x), Finite(y)) => x < y
    case (Infinite(p), Infinite(q)) => !p && q
    case (Finite(_), Infinite(q)) => q
    case (Infinite(p), Finite(_)) => !p
    case _ => false
  }

  /******* Rows *******/

  datatype Alert = Alert(externalId: Option<string>, service: Id, kind: string, severity: Severity, startedAt: int)

  datatype Incident = Incident(
    service: Id, severity: Severity, status: IncidentStatus, startedAt: int, resolvedAt: Option<int>)

  /** One row of the alert link table; its key is the pair. */
  datatype Link = Link(incident: Id, alert: Id)

  datatype Happening =
    | IncidentCreated(alert: Id, severity: Severity)
    | AlertCorrelated(alert: Id)
    | SeverityEscalated(from: Severity, to: Severity)
    | AgentRunCreated(run: Id)
    | EvidenceCollected(run: Id, evidence: Id)
    | ApprovalRequested(recommendation: Id)
    | ApprovalDecided(approval: Id)
    | RemediationExecuted(approval: Id)

  datatype Event = Event(incident: Id, what: Happening)

  datatype AgentRun = AgentRun(
    incident: Id, status: RunStatus, createdAt: int, startedAt: Option<int>, finishedAt: Option<int>)

  datatype ToolCall = ToolCall(run: Id, source: SourceType, succeeded: bool)

  datatype Evidence = Evidence(incident: Id, run: Id, toolCall: Option<Id>, source: SourceType, name: string)

  datatype Hypothesis = Hypothesis(run: Id, rootCause: string, summary: string, confidence: Float)

  datatype Citation = Citation(hypothesis: Id, evidence: Id, run: Id)

  datatype Recommendation = Recommendation(
    run: Id, hypothesis: Id, action: string, parameters: map<string, J.Json>)

  datatype Approval = Approval(
    recommendation: Id, run: Id, action: string, parameters: map<string, J.Json>, hash: string,
    status: ApprovalStatus, createdAt: int, expiresAt: int, decidedAt: Option<int>,
    executedAt: Option<int>, execution: Option<ExecutionStatus>)

  /** Events are kept in insertion order; every other table is a set of rows by key. */
  datatype Tables = Tables(
    services: map<string, Id>,
    alerts: map<Id, Alert>,
    incidents: map<Id, Incident>,
    links: set<Link>,
    events: seq<Event>,
    runs: map<Id, AgentRun>,
    toolCalls: map<Id, ToolCall>,
    evidence: map<Id, Evidence>,
    hypotheses: map<Id, Hypothesis>,
    citations: set<Citation>,
    recommendations: map<Id, Recommendation>,
    approvals: map<Id, Approval>,
    nextId: Id)

  const EMPTY := Tables(map[], map[], map[], {}, [], map[], map[], map[], map[], {}, map[], map[], 0)

  /******* Queries *******/

  ghost function PickAny(rows: set<Id>): Id {
    if rows == {} then 0 else var r :| r in rows; r
  }

  /** Which of several equally ranked rows a `LIMIT 1` query returns: any choice is possible. */
  type RowChoice = f: set<Id> -> Id | forall rows: set<Id> :: rows != {} ==> f(rows) in rows
    ghost witness PickAny

  function FirstRow(rows: set<Id>, choose: RowChoice): (r: Option<Id>)
    ensures r.None? <==> rows == {}
    ensures r.Some? ==> r.value in rows
  {
    if rows == {} then None else Some(choose(rows))
  }

  /** The alerts linked to an incident. */
  ghost function Linked(t: Tables, i: Id): set<Id> {
    set l | l in t.links && l.incident == i :: l.alert
  }

  ghost predicate HasRun(t: Tables, i: Id) {
    exists r :: r in t.runs && t.runs[r].incident == i
  }

  /** Approval p concerns incident i, through its agent run. */
  ghost predicate ApprovalOf(t: Tables, p: Id, i: Id) {
    p in t.approvals && t.approvals[p].run in t.runs && t.runs[t.approvals[p].run].incident == i
  }

  /** Some approval of incident i was rejected, or carried out. */
  ghost predicate Closed(t: Tables, i: Id) {
    exists p :: ApprovalOf(t, p, i) &&
      (t.approvals[p].status == ApprovalStatus.Rejected || t.approvals[p].executedAt.Some?)
  }

  /** Evidence of one run. */
  function EvidenceOfRun(t: Tables, run: Id): set<Id> {
    set e | e in t.evidence && t.evidence[e].run == run
  }
}
