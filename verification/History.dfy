/** What no request ever undoes: alerts stay linked, and an approval only moves forward. */
module History {
  import opened Base
  import opened Schema
  import opened Ingestion
  import opened Correlation
  import opened Investigation
  import opened Gate
  import opened Collection
  import opened CaseSteps
  import opened ApprovalSteps
  import opened Analysis
  import opened Agent
  import opened Orchestrator
  import opened Webhook

  /** What is fixed when the approval is requested. */
  predicate SameTerms(a: Approval, b: Approval) {
    a.recommendation == b.recommendation && a.run == b.run && a.action == b.action &&
    a.parameters == b.parameters && a.hash == b.hash && a.createdAt == b.createdAt && a.expiresAt == b.expiresAt
  }

  /** A decision is made at most once, and an execution at most once. */
  predicate MovesForward(a: Approval, b: Approval) {
    && SameTerms(a, b)
    && (a.status != ApprovalStatus.Pending ==> b.status == a.status && b.decidedAt == a.decidedAt)
    && (a.executedAt.Some? ==> b == a)
  }

  ghost predicate ApprovalsAdvance(t: Tables, t': Tables) {
    forall p :: p in t.approvals ==> p in t'.approvals && MovesForward(t.approvals[p], t'.approvals[p])
  }

  /** What identifies an incident is fixed, its severity never falls, and it is never NEW or unresolved again. */
  predicate IncidentAdvances(a: Incident, b: Incident) {
    a.service == b.service && a.startedAt == b.startedAt && Rank(a.severity) <= Rank(b.severity) &&
    (b.status == New ==> a.status == New) && (a.resolvedAt.Some? ==> b.resolvedAt.Some?)
  }

  /** Incidents advance, and the timeline is only appended to. */
  ghost predicate CasesAdvance(t: Tables, t': Tables) {
    t.events <= t'.events &&
    forall i :: i in t.incidents ==> i in t'.incidents && IncidentAdvances(t.incidents[i], t'.incidents[i])
  }

  lemma CasesAdvanceTwice(t: Tables, u: Tables, v: Tables)
    requires CasesAdvance(t, u) && CasesAdvance(u, v)
    ensures CasesAdvance(t, v)
  {}

  ghost predicate Progress(t: Tables, t': Tables) {
    Remembers(t, t') && ApprovalsAdvance(t, t') && CasesAdvance(t, t')
  }

  lemma ProgressIsTransitive(t: Tables, u: Tables, v: Tables)
    requires Progress(t, u) && Progress(u, v)
    ensures Progress(t, v)
  {
    RemembersIsTransitive(t, u, v);
    CasesAdvanceTwice(t, u, v);
    hide CasesAdvance, Remembers;
    forall p | p in t.approvals ensures p in v.approvals && MovesForward(t.approvals[p], v.approvals[p]) {
      assert p in u.approvals && MovesForward(t.approvals[p], u.approvals[p]);
    }
  }

  /** Incidents in a terminal status stay in it. */
  ghost predicate TerminalsKept(t: Tables, t': Tables) {
    forall i :: i in t.incidents && Terminal(t.incidents[i].status) ==>
      i in t'.incidents && t'.incidents[i].status == t.incidents[i].status
  }

  /** Neither alerts nor approvals nor terminal statuses are touched. */
  ghost predicate Quiet(t: Tables, t': Tables) {
    t'.alerts == t.alerts && t'.links == t.links && t'.approvals == t.approvals &&
    t'.incidents.Keys == t.incidents.Keys && TerminalsKept(t, t') && CasesAdvance(t, t')
  }

  lemma QuietIsProgress(t: Tables, t': Tables)
    requires Quiet(t, t')
    ensures Progress(t, t')
  {}

  /******* Alerts *******/

  lemma ServiceAdvances(t: Tables, name: string)
    ensures CasesAdvance(t, GetOrCreateService(t, name).0)
  {}

  lemma OpenAdvances(t: Tables, alert: Alert)
    requires AlertIdsBelow(t)
    ensures CasesAdvance(t, OpenIncident(t, alert))
  {}

  lemma LinkAdvances(t: Tables, alert: Alert, i: Id)
    ensures CasesAdvance(t, LinkAlert(t, alert, i))
  {}

  lemma EscalationAdvances(t: Tables, i: Id, severity: Severity)
    requires i in t.incidents
    ensures CasesAdvance(t, EscalateSeverity(t, i, severity))
  {}

  lemma PlaceAdvances(t: Tables, alert: Alert, found: Option<Id>)
    requires AlertIdsBelow(t) && (found.Some? ==> found.value in t.incidents)
    ensures CasesAdvance(t, Place(t, alert, found))
  {
    if found.None? {
      OpenAdvances(t, alert);
    } else {
      var linked := LinkAlert(t, alert, found.value);
      LinkAdvances(t, alert, found.value);
      EscalationAdvances(linked, found.value, alert.severity);
      CasesAdvanceTwice(t, linked, EscalateSeverity(linked, found.value, alert.severity));
    }
    hide CasesAdvance;
  }

  lemma IngestAdvances(t: Tables, req: AlertRequest, w: int, choose: RowChoice)
    requires AlertIdsBelow(t)
    ensures CasesAdvance(t, IngestAlert(t, req, w, choose).tables)
  {
    hide StoreAlert, Place, FindCorrelatedIncident;
    var stored := StoreAlert(t, req, w, choose);
    StoreAlertKeepsOnAbort(t, req, w, choose);
    if stored.reply.Ingested? {
      var (t1, service) := GetOrCreateService(t, req.serviceName);
      var alert := Alert(req.externalId, service, req.kind, req.severity, req.startedAt);
      var found := FindCorrelatedIncident(t1, service, req.kind, req.startedAt, w, choose);
      StoreAlertPlaces(t, req, w, choose);
      ServiceRemembers(t, req.serviceName);
      ServiceAdvances(t, req.serviceName);
      FoundExists(t1, service, req.kind, req.startedAt, w, choose);
      PlaceAdvances(t1, alert, found);
      CasesAdvanceTwice(t, t1, stored.tables);
    }
  }

  /******* Quiet requests *******/

  lemma {:induction false} SourcesAreQuiet(t: Tables, run: Id, sources: seq<Source>, n: nat)
    requires run in t.runs && n <= |sources|
    ensures Quiet(t, CollectSources(t, run, sources, n).tables)
  {
    hide CollectSource;
    if n > 0 {
      SourcesAreQuiet(t, run, sources, n - 1);
      SourceIsQuiet(CollectSources(t, run, sources, n - 1), run, sources[n - 1]);
    }
  }

  lemma SourceIsQuiet(p: Pass, run: Id, s: Source)
    requires run in p.tables.runs
    ensures Quiet(p.tables, CollectSource(p, run, s).tables)
  {
    var called := RecordToolCall(p.tables, run, s.kind, s.attempt.Fetched?);
    CallIsQuiet(p.tables, run, s.kind, s.attempt.Fetched?);
    if s.attempt.Fetched? {
      EvidenceIsQuiet(called.tables, run, called.value, s.kind, s.name);
    }
    hide RecordEvidence;
  }

  lemma CallIsQuiet(t: Tables, run: Id, source: SourceType, ok: bool)
    ensures RecordToolCall(t, run, source, ok).Done? ==> Quiet(t, RecordToolCall(t, run, source, ok).tables)
  {}

  lemma EvidenceIsQuiet(t: Tables, run: Id, call: Id, source: SourceType, name: string)
    ensures RecordEvidence(t, run, Some(call), source, name).Done? ==>
      Quiet(t, RecordEvidence(t, run, Some(call), source, name).tables)
  {}

  /** Whether collection ends well or is interrupted. */
  lemma CollectIsQuiet(t: Tables, i: Id, req: CollectRequest, sources: seq<Source>, now: int)
    ensures match CollectIncidentEvidence(t, i, req, sources, now)
      case NotCollected(_) => true
      case Interrupted(u) => Quiet(t, u)
      case Collected(u, _) => Quiet(t, u)
  {
    hide CollectSources;
    if i in t.incidents {
      var (start, end) := Window(t.incidents[i].startedAt, req, now);
      SourcesAreQuiet(StartRun(t, i, now), t.nextId, QueriedAll(sources, start, end), |sources|);
    }
  }

  lemma AnalyzeIsQuiet(
    t: Tables, i: Id, req: AnalyzeRequest, errorMentioned: bool, now: int, choose: RowChoice)
    ensures AnalyzeIncident(t, i, req, errorMentioned, now, choose).Done? ==>
      Quiet(t, AnalyzeIncident(t, i, req, errorMentioned, now, choose).tables)
  {
    hide AnalyzeRun;
    var run := RunToAnalyze(t, i, req.run, choose);
    if i in t.incidents && run.Some? {
      AnalyzeRunIsQuiet(t, i, run.value, req, errorMentioned, now);
    }
  }

  lemma QuietIsTransitive(t: Tables, u: Tables, v: Tables)
    requires Quiet(t, u) && Quiet(u, v)
    ensures Quiet(t, v)
  {
    CasesAdvanceTwice(t, u, v);
    hide CasesAdvance;
  }

  lemma TakeRunIsQuiet(t: Tables, run: Id, now: int)
    requires run in t.runs
    ensures Quiet(t, TakeRun(t, run, now)) && TakeRun(t, run, now).runs.Keys == t.runs.Keys
    ensures TakeRun(t, run, now).nextId == t.nextId
  {}

  lemma StatusChangeIsQuiet(t: Tables, i: Id, status: IncidentStatus)
    requires i in t.incidents && !Terminal(t.incidents[i].status) && status != New
    ensures Quiet(t, WithStatus(t, i, status))
  {}

  /** Only new and collecting incidents are marked. */
  lemma MarkingIsQuiet(t: Tables, i: Id)
    requires i in t.incidents
    ensures Quiet(t, MarkAnalyzing(t, i))
    ensures MarkAnalyzing(t, i).runs == t.runs && MarkAnalyzing(t, i).nextId == t.nextId
  {
    hide Quiet;
    if !Terminal(t.incidents[i].status) {
      StatusChangeIsQuiet(t, i, Analyzing);
    }
    QuietIsReflexive(t);
  }

  lemma QuietIsReflexive(t: Tables)
    ensures Quiet(t, t)
  {}

  lemma HandOverIsQuiet(t: Tables, i: Id, run: Id, now: int)
    requires i in t.incidents && run in t.runs
    ensures QuietWrite(t, HandOver(t, i, run, now))
  {
    TakeRunIsQuiet(t, run, now);
    MarkingIsQuiet(TakeRun(t, run, now), i);
    hide Quiet, MarkAnalyzing;
    QuietIsTransitive(t, TakeRun(t, run, now), HandOver(t, i, run, now));
  }

  lemma AnalyzeRunIsQuiet(t: Tables, i: Id, run: Id, req: AnalyzeRequest, errorMentioned: bool, now: int)
    requires i in t.incidents && run in t.runs
    ensures AnalyzeRun(t, i, run, req, errorMentioned, now).Done? ==>
      Quiet(t, AnalyzeRun(t, i, run, req, errorMentioned, now).tables)
  {
    hide RecordRegression, Supported, RegressionHypothesis, ValidHypothesis, Quiet, MarkAnalyzing, FinishRun;
    var taken := MarkAnalyzing(TakeRun(t, run, now), i);
    FinishIsQuiet(t, run, RunInsufficient, now);
    HandOverIsQuiet(t, i, run, now);
    if EvidenceOfRun(t, run) != {} && Supported(taken, run, errorMentioned, req.minConfidence) {
      DraftValidWhenSupported(taken, run, errorMentioned, req.minConfidence);
      RegressionIsQuiet(taken, i, run, now);
      if RecordRegression(taken, i, run, now).Done? {
        QuietIsTransitive(t, taken, RecordRegression(taken, i, run, now).tables);
      }
    } else if EvidenceOfRun(t, run) != {} {
      FinishIsQuiet(taken, run, RunInsufficient, now);
      QuietIsTransitive(t, taken, FinishRun(taken, run, RunInsufficient, now));
    }
  }

  lemma DraftValidWhenSupported(t: Tables, run: Id, errorMentioned: bool, minConfidence: real)
    requires Supported(t, run, errorMentioned, minConfidence)
    ensures ValidHypothesis(RegressionHypothesis(t, run))
  {
    DraftIsValid(t, run);
  }

  lemma RegressionIsQuiet(t: Tables, i: Id, run: Id, now: int)
    requires run in t.runs && ValidHypothesis(RegressionHypothesis(t, run))
    ensures RecordRegression(t, i, run, now).Done? ==> Quiet(t, RecordRegression(t, i, run, now).tables)
  {
    hide CitationsInRun, RegressionHypothesis, ValidHypothesis, ValidRecommendation;
  }

  /******* Requests that touch approvals *******/

  /** One approval row is written, new or moving forward, and alerts are left alone. */
  lemma WrittenRowProgresses(t: Tables, t': Tables, p: Id, row: Approval)
    requires t'.alerts == t.alerts && t'.links == t.links && t'.incidents.Keys == t.incidents.Keys
    requires t'.approvals == t.approvals[p := row]
    requires p in t.approvals ==> MovesForward(t.approvals[p], row)
    requires CasesAdvance(t, t')
    ensures Progress(t, t')
  {
    hide CasesAdvance;
  }

  lemma RequestProgresses(t: Tables, hash: Hash, rec: Id, now: int, choose: RowChoice)
    requires forall p :: p in t.approvals ==> p < t.nextId
    ensures RequestApproval(t, hash, rec, now, choose).Done? ==>
      Progress(t, RequestApproval(t, hash, rec, now, choose).tables)
  {
    hide Progress, RequestApproval, PendingRow;
    var made := RequestApproval(t, hash, rec, now, choose);
    if made.Done? {
      RequestWrites(t, hash, rec, now, choose);
      RequestAdvances(t, hash, rec, now, choose);
      if ApprovalsFor(t, rec) != {} {
        QuietIsProgress(t, t);
      } else {
        WrittenRowProgresses(t, made.tables, t.nextId, PendingRow(hash, rec, t.recommendations[rec], now));
      }
    }
  }

  lemma RequestWrites(t: Tables, hash: Hash, rec: Id, now: int, choose: RowChoice)
    requires RequestApproval(t, hash, rec, now, choose).Done?
    ensures rec in t.recommendations
    ensures var u := RequestApproval(t, hash, rec, now, choose).tables;
      if ApprovalsFor(t, rec) != {} then u == t
      else
        u.approvals == t.approvals[t.nextId := PendingRow(hash, rec, t.recommendations[rec], now)] &&
        u.alerts == t.alerts && u.links == t.links && u.incidents.Keys == t.incidents.Keys
  {
    hide PendingRow, ApprovalsFor, FirstRow;
    var r := t.recommendations[rec];
    if ApprovalsFor(t, rec) == {} {
      var stored := t.(approvals := t.approvals[t.nextId := PendingRow(hash, rec, r, now)], nextId := t.nextId + 1);
      var i := t.runs[r.run].incident;
      var u := RequestApproval(t, hash, rec, now, choose).tables;
      if i in t.incidents {
        assert u == WithStatus(stored, i, NeedsApproval).(events := t.events + [Event(i, ApprovalRequested(rec))]);
      } else {
        assert u == stored;
      }
    }
  }

  lemma RequestAdvances(t: Tables, hash: Hash, rec: Id, now: int, choose: RowChoice)
    requires RequestApproval(t, hash, rec, now, choose).Done?
    ensures CasesAdvance(t, RequestApproval(t, hash, rec, now, choose).tables)
  {
    hide PendingRow, ApprovalsFor;
  }

  lemma DecideProgresses(t: Tables, hash: Hash, p: Id, decision: ApprovalStatus, now: int)
    requires p in t.approvals ==> t.approvals[p].executedAt.Some? ==> t.approvals[p].status == ApprovalStatus.Approved
    ensures DecideApproval(t, hash, p, decision, now).Done? ==>
      Progress(t, DecideApproval(t, hash, p, decision, now).tables)
  {
    hide Progress, DecideApproval;
    var made := DecideApproval(t, hash, p, decision, now);
    if made.Done? {
      DecideWrites(t, hash, p, decision, now);
      WrittenRowProgresses(t, made.tables, p, DecidedRow(t.approvals[p], decision, now));
    }
  }

  lemma DecideWrites(t: Tables, hash: Hash, p: Id, decision: ApprovalStatus, now: int)
    requires DecideApproval(t, hash, p, decision, now).Done?
    ensures p in t.approvals && t.approvals[p].status == ApprovalStatus.Pending
    ensures var u := DecideApproval(t, hash, p, decision, now).tables;
      u.approvals == t.approvals[p := DecidedRow(t.approvals[p], decision, now)] &&
      u.alerts == t.alerts && u.links == t.links && u.incidents.Keys == t.incidents.Keys && CasesAdvance(t, u)
  {
    hide ActionDigest;
  }

  lemma ExecuteProgresses(t: Tables, hash: Hash, p: Id, recovered: bool, now: int)
    ensures ExecuteApproval(t, hash, p, recovered, now).Executed? ==>
      Progress(t, ExecuteApproval(t, hash, p, recovered, now).tables)
  {
    hide ActionDigest, Progress;
    var made := ExecuteApproval(t, hash, p, recovered, now);
    if made.Executed? {
      WrittenRowProgresses(t, made.tables, p, ExecutedRow(t.approvals[p], now));
    }
  }

  /******* Investigation *******/

  lemma {:induction false} RunbooksAreQuiet(t: Tables, i: Id, run: Id, records: seq<EvidenceRecord>, n: nat)
    requires n <= |records|
    ensures QuietWrite(t, StoreRunbooks(t, i, run, records, n))
  {
    if n > 0 {
      RunbooksAreQuiet(t, i, run, records, n - 1);
    }
  }

  /** Quiet, with the runs and the room for new ids that the next write needs. */
  ghost predicate QuietWrite(t: Tables, t': Tables) {
    Quiet(t, t') && t'.runs.Keys == t.runs.Keys && t.nextId <= t'.nextId
  }

  lemma HypothesisIsQuiet(t: Tables, run: Id, h: HypothesisCreate)
    requires ValidHypothesis(h)
    ensures RecordHypothesis(t, run, h).Done? ==> QuietWrite(t, RecordHypothesis(t, run, h).tables)
  {
    hide CitationsInRun, ValidHypothesis;
  }

  lemma ProposalIsQuiet(t: Tables, run: Id, h: Id, d: Option<RecommendationDraft>)
    ensures RecordProposal(t, run, h, d).Done? ==> QuietWrite(t, RecordProposal(t, run, h, d).tables)
  {
    hide ValidRecommendation;
  }

  lemma FinishIsQuiet(t: Tables, run: Id, status: RunStatus, now: int)
    requires run in t.runs
    ensures QuietWrite(t, FinishRun(t, run, status, now))
  {}

  /** Up to the approval request, storing findings is quiet. */
  lemma FindingsProgress(
    t: Tables, hash: Hash, run: Id, f: AgentState, auto: bool, now: int, choose: RowChoice)
    requires f.selected.Some? && run in t.runs
    requires forall p :: p in t.approvals ==> p < t.nextId
    ensures StoreFindings(t, hash, run, f, auto, now, choose).Done? ==>
      Progress(t, StoreFindings(t, hash, run, f, auto, now, choose).tables)
  {
    hide ValidHypothesis, RecordHypothesis, RecordProposal, FinishRun, AskApproval, HypothesisFrom, Progress;
    if StoreFindings(t, hash, run, f, auto, now, choose).Done? {
      var payload := HypothesisFrom(f.selected.value);
      var u := RecordHypothesis(t, run, payload);
      HypothesisIsQuiet(t, run, payload);
      var v := RecordProposal(u.tables, run, u.value, f.recommendation);
      ProposalIsQuiet(u.tables, run, u.value, f.recommendation);
      var x := FinishRun(v.tables, run, RunCompleted, now);
      FinishIsQuiet(v.tables, run, RunCompleted, now);
      QuietIsProgress(t, x);
      AskProgresses(x, hash, auto, f.recommendation, v.value, now, choose);
      ProgressIsTransitive(t, x, AskApproval(x, hash, auto, f.recommendation, v.value, now, choose).tables);
    }
  }

  lemma AskProgresses(
    t: Tables, hash: Hash, auto: bool, d: Option<RecommendationDraft>, rec: Option<Id>, now: int, choose: RowChoice)
    requires forall p :: p in t.approvals ==> p < t.nextId
    ensures AskApproval(t, hash, auto, d, rec, now, choose).Done? ==>
      Progress(t, AskApproval(t, hash, auto, d, rec, now, choose).tables)
  {
    QuietIsProgress(t, t);
    if rec.Some? {
      RequestProgresses(t, hash, rec.value, now, choose);
    }
  }

  lemma OutcomeProgresses(
    t: Tables, hash: Hash, i: Id, run: Id, f: AgentState, auto: bool, now: int, choose: RowChoice)
    requires run in t.runs && forall p :: p in t.approvals ==> p < t.nextId
    ensures StoreOutcome(t, hash, i, run, f, auto, now, choose).Done? ==>
      Progress(t, StoreOutcome(t, hash, i, run, f, auto, now, choose).tables)
  {
    hide StoreRunbooks, StoreFindings, FinishRun, Progress;
    var stored := StoreRunbooks(t, i, run, f.runbooks, |f.runbooks|);
    RunbooksAreQuiet(t, i, run, f.runbooks, |f.runbooks|);
    QuietIsProgress(t, stored);
    if f.status == InsufficientEvidence || f.selected.None? {
      FinishIsQuiet(stored, run, RunInsufficient, now);
      QuietIsProgress(t, FinishRun(stored, run, RunInsufficient, now));
    } else if StoreFindings(stored, hash, run, f, auto, now, choose).Done? {
      FindingsProgress(stored, hash, run, f, auto, now, choose);
      ProgressIsTransitive(t, stored, StoreFindings(stored, hash, run, f, auto, now, choose).tables);
    }
  }

  lemma ConcludeProgresses(
    t: Tables, hash: Hash, i: Id, run: Id, evidence: seq<Id>, req: InvestigateRequest, env: Surroundings)
    requires i in t.incidents && run in t.runs && forall e :: e in evidence ==> e in t.evidence
    requires forall p :: p in t.approvals ==> p < t.nextId
    ensures !Conclude(t, hash, i, run, evidence, req, env).NotInvestigated?
    ensures Progress(t, Conclude(t, hash, i, run, evidence, req, env).tables)
  {
    hide HandOver, StoreOutcome, GraphOf, Progress;
    var taken := HandOver(t, i, run, env.now);
    var f := GraphOf(taken, i, evidence, req, env);
    HandOverIsQuiet(t, i, run, env.now);
    QuietIsProgress(t, t);
    QuietIsProgress(t, taken);
    OutcomeProgresses(taken, hash, i, run, f, req.autoRequestApproval, env.now, env.choose);
    if StoreOutcome(taken, hash, i, run, f, req.autoRequestApproval, env.now, env.choose).Done? {
      ProgressIsTransitive(t, taken,
        StoreOutcome(taken, hash, i, run, f, req.autoRequestApproval, env.now, env.choose).tables);
    }
  }
}
