/**
  The session a request works in: a working copy of the tables, updated in place by the services, and
  the committed tables behind it. Every method is proved equal to the function that specifies it.
 */
module Store {
  import opened Base
  import opened Schema
  import opened Ingestion
  import opened Correlation
  import opened Investigation
  import opened Gate
  import opened Collection
  import opened CaseSteps
  import opened Provenance
  import opened Analysis
  import opened Agent
  import opened GraphRun
  import opened Orchestrator
  import opened Webhook
  import opened Soundness
  import opened System

  datatype Result<+T> = Ok(value: T) | Err(error: Error)

  /** A service answered as specified: either it wrote what it should, or it raised and wrote nothing. */
  predicate Answers<T(==)>(spec: Outcome<T>, before: Tables, after: Tables, result: Result<T>) {
    match spec
    case Done(t, value) => after == t && result == Ok(value)
    case Refused(error) => after == before && result == Err(error)
  }

  /** The same for a service that may have flushed some writes before it raised. */
  predicate Settles<T(==)>(spec: Outcome<T>, after: Tables, result: Result<T>) {
    match spec
    case Done(t, value) => after == t && result == Ok(value)
    case Refused(error) => result == Err(error)
  }

  /** An alert without a link is invisible to the correlation query. */
  lemma UnlinkedIsNotCorrelated(
    t: Tables, alert: Alert, service: Id, kind: string, at: int, w: int, choose: RowChoice)
    requires AlertIdsBelow(t) && LinksFit(t)
    ensures var t' := t.(alerts := t.alerts[t.nextId := alert], nextId := t.nextId + 1);
      FindCorrelatedIncident(t', service, kind, at, w, choose) == FindCorrelatedIncident(t, service, kind, at, w, choose)
  {
    var t' := t.(alerts := t.alerts[t.nextId := alert], nextId := t.nextId + 1);
    forall i ensures Correlates(t', i, service, kind, at, w) <==> Correlates(t, i, service, kind, at, w) {}
    assert LatestCorrelated(t', service, kind, at, w) == LatestCorrelated(t, service, kind, at, w);
  }

  /** Escalating before or after linking makes no difference. */
  lemma LinkingCommutes(t: Tables, i: Id, severity: Severity, links: set<Link>)
    requires i in t.incidents
    ensures Ingestion.EscalateSeverity(t, i, severity).(links := links) ==
      Ingestion.EscalateSeverity(t.(links := links), i, severity)
  {}

  lemma ServiceKeepsLinks(t: Tables, name: string)
    requires AlertIdsBelow(t) && LinksFit(t)
    ensures AlertIdsBelow(Ingestion.GetOrCreateService(t, name).0) && LinksFit(Ingestion.GetOrCreateService(t, name).0)
  {}

  lemma {:induction false} FailedDeliveryStops(
    t: Tables, p: Payload, w: int, choose: nat -> RowChoice, k: nat, n: nat)
    requires k <= n <= |p.alerts| && Deliver(t, p, w, choose, k).failed
    ensures Deliver(t, p, w, choose, n) == Deliver(t, p, w, choose, k)
  {
    hide DeliverAlert;
    if k < n {
      FailedDeliveryStops(t, p, w, choose, k, n - 1);
    }
  }

  lemma SoundDeliveries(t: Tables, p: Payload, choose: nat -> RowChoice, k: nat, hash: Hash, w: int, now: int)
    requires Sound(t, hash, w, now) && k <= |p.alerts|
    ensures AlertIdsBelow(Deliver(t, p, w, choose, k).tables) && LinksFit(Deliver(t, p, w, choose, k).tables)
  {
    hide Deliver, Recorded, Lifecycle;
    DeliveryPreserves(t, p, choose, k, hash, w, now);
  }

  lemma Overwrite<T>(m: map<Id, T>, k: Id, first: T, second: T)
    ensures m[k := first][k := second] == m[k := second]
  {}

  /** The cited ids that name evidence of the run. */
  function FoundIn(t: Tables, run: Id, cited: set<Id>): set<Id> {
    set e | e in cited && e in t.evidence && t.evidence[e].run == run
  }

  lemma FoundIsAll(t: Tables, run: Id, cited: set<Id>)
    ensures FoundIn(t, run, cited) == cited <==> CitationsInRun(t, run, cited)
  {
    if FoundIn(t, run, cited) == cited {
      forall e | e in cited ensures e in t.evidence && t.evidence[e].run == run {
        assert e in FoundIn(t, run, cited);
      }
    }
  }

  lemma StartedRunExists(t: Tables, i: Id, now: int)
    requires i in t.incidents
    ensures t.nextId in StartRun(t, i, now).runs
  {}

  lemma SoundAlerts(t: Tables, hash: Hash, w: int, now: int)
    requires Sound(t, hash, w, now)
    ensures AlertIdsBelow(t) && LinksFit(t)
  {
    hide Recorded, Lifecycle;
  }

  lemma TakingOverKeeps(t: Tables, i: Id, run: Id, now: int)
    requires i in t.incidents && run in t.runs
    ensures run in MarkAnalyzing(TakeRun(t, run, now), i).runs
  {}

  lemma TakenRunExists(t: Tables, i: Id, run: Id, now: int)
    requires i in t.incidents && run in t.runs
    ensures run in HandOver(t, i, run, now).runs
  {}

  lemma SupportedMeans(t: Tables, run: Id, errorMentioned: bool, minConfidence: real)
    ensures var n := |CitedEvidence(t, run)|;
      Supported(t, run, errorMentioned, minConfidence) <==>
        Regression(t, run, errorMentioned) && n >= 2 && !(Confidence(n) < minConfidence)
  {}

  lemma {:induction false} RaisedPassStops(t: Tables, run: Id, sources: seq<Source>, k: nat, n: nat)
    requires run in t.runs && k <= n <= |sources| && CollectSources(t, run, sources, k).raised
    ensures CollectSources(t, run, sources, n) == CollectSources(t, run, sources, k)
  {
    if k < n {
      RaisedPassStops(t, run, sources, k, n - 1);
    }
  }

  class Session {
    const cfg: Config
    /** The rows as this session sees them, including what it has only flushed. */
    var tables: Tables
    /** The rows every other session sees. */
    var committed: Tables

    /** Nothing is waiting to be committed. */
    predicate Clean()
      reads this
    {
      tables == committed
    }

    constructor (cfg: Config, db: Tables)
      ensures this.cfg == cfg && committed == db && Clean()
    {
      this.cfg := cfg;
      tables, committed := db, db;
    }

    method Commit()
      modifies `committed
      ensures Clean()
    {
      committed := tables;
    }

    method Rollback()
      modifies `tables
      ensures Clean()
    {
      tables := committed;
    }

    /** Appends one event to the timeline of incident i. */
    method AddEvent(i: Id, what: Happening)
      modifies `tables
      ensures tables == old(tables).(events := old(tables).events + [Event(i, what)])
    {
      tables := tables.(events := tables.events + [Event(i, what)]);
    }

    /** A fresh id, as the database hands one out. */
    method TakeId() returns (id: Id)
      modifies `tables
      ensures id == old(tables).nextId && tables == old(tables).(nextId := id + 1)
    {
      id := tables.nextId;
      tables := tables.(nextId := id + 1);
    }

    /******* Alert ingestion *******/

    method GetOrCreateService(name: string) returns (service: Id)
      modifies `tables
      ensures (tables, service) == Ingestion.GetOrCreateService(old(tables), name)
    {
      if name in tables.services {
        service := tables.services[name];
      } else {
        service := TakeId();
        tables := tables.(services := tables.services[name := service]);
      }
    }

    method EscalateSeverity(i: Id, severity: Severity)
      requires i in tables.incidents
      modifies `tables
      ensures tables == Ingestion.EscalateSeverity(old(tables), i, severity)
    {
      var previous := tables.incidents[i].severity;
      if Rank(severity) <= Rank(previous) {
        return;
      }
      tables := tables.(incidents := tables.incidents[i := tables.incidents[i].(severity := severity)]);
      AddEvent(i, SeverityEscalated(previous, severity));
    }

    method IngestAlert(req: AlertRequest, choose: RowChoice) returns (reply: IngestReply)
      requires Clean() && AlertIdsBelow(tables) && LinksFit(tables)
      modifies this
      ensures IngestResult(tables, reply) == Ingestion.IngestAlert(old(tables), req, cfg.window, choose)
      ensures Clean()
    {
      hide StoreAlert;
      if req.externalId.Some? && req.externalId.value != "" {
        var rows := RowsFor(tables, req.externalId.value);
        if |rows| > 1 {
          return Aborted(MultipleResults);
        }
        if |rows| == 1 {
          var row := TheOnly(rows);
          return Duplicate(row.alert, row.incident, tables.incidents[row.incident].status);
        }
      }
      reply := StoreNewAlert(req, choose);
    }

    /** Adds the alert, then finds or opens its incident, then links it; a failed flush drops everything. */
    method StoreNewAlert(req: AlertRequest, choose: RowChoice) returns (reply: IngestReply)
      requires Clean() && AlertIdsBelow(tables) && LinksFit(tables)
      modifies this
      ensures IngestResult(tables, reply) == StoreAlert(old(tables), req, cfg.window, choose)
      ensures Clean()
    {
      hide FindCorrelatedIncident, AlertIdsBelow, LinksFit, OpenIncident, JoinIncident;
      var service := GetOrCreateService(req.serviceName);
      if ExternalIdTaken(tables, req.externalId) {
        Rollback();
        return Aborted(UniqueViolation);
      }
      ghost var before := tables;
      ServiceKeepsLinks(old(tables), req.serviceName);
      var alert := Alert(req.externalId, service, req.kind, req.severity, req.startedAt);
      var a := TakeId();
      tables := tables.(alerts := tables.alerts[a := alert]);
      UnlinkedIsNotCorrelated(before, alert, service, req.kind, req.startedAt, cfg.window, choose);
      var found := FindCorrelatedIncident(tables, service, req.kind, req.startedAt, cfg.window, choose);
      FoundExists(tables, service, req.kind, req.startedAt, cfg.window, choose);
      var status := if found.None? then New else tables.incidents[found.value].status;
      var i := Attach(before, alert, found);
      Commit();
      reply := Ingested(a, i, status, found.Some?);
    }

    /** Links the alert that was added to `before` to the incident found for it, or to a new one. */
    method Attach(ghost before: Tables, alert: Alert, found: Option<Id>) returns (i: Id)
      requires tables == before.(alerts := before.alerts[before.nextId := alert], nextId := before.nextId + 1)
      requires found.Some? ==> found.value in tables.incidents
      modifies `tables
      ensures tables == Place(before, alert, found)
      ensures i == if found.Some? then found.value else before.nextId + 1
    {
      var a := tables.nextId - 1;
      if found.None? {
        i := OpenFor(alert, a);
      } else {
        i := found.value;
        AddEvent(i, AlertCorrelated(a));
        LinkingCommutes(tables, i, alert.severity, tables.links + {Link(i, a)});
        assert tables.(links := tables.links + {Link(i, a)}) == LinkAlert(before, alert, i);
        EscalateSeverity(i, alert.severity);
        hide Ingestion.EscalateSeverity;
      }
      tables := tables.(links := tables.links + {Link(i, a)});
    }

    /** A new incident opened by alert a. */
    method OpenFor(alert: Alert, a: Id) returns (i: Id)
      modifies `tables
      ensures var t := old(tables);
        i == t.nextId && tables == t.(
          incidents := t.incidents[i := Incident(alert.service, alert.severity, New, alert.startedAt, None)],
          events := t.events + [Event(i, IncidentCreated(a, alert.severity))],
          nextId := i + 1)
    {
      i := TakeId();
      tables := tables.(incidents :=
        tables.incidents[i := Incident(alert.service, alert.severity, New, alert.startedAt, None)]);
      AddEvent(i, IncidentCreated(a, alert.severity));
    }

    /** Ingests the firing alerts one by one, each in a transaction of its own. */
    method ReceiveWebhook(p: Payload, choices: nat -> RowChoice, ghost now: int)
      returns (ingested: nat, duplicates: nat, ignored: nat, incidentIds: seq<Id>, failed: bool)
      requires Clean() && Sound(tables, cfg.hash, cfg.window, now)
      modifies this
      ensures Delivery(tables, ingested, duplicates, ignored, incidentIds, failed) ==
        Deliver(old(tables), p, cfg.window, choices, |p.alerts|)
      ensures Clean()
    {
      hide Sound, Ingestion.IngestAlert, ToIngestRequest, AlertIdsBelow, LinksFit;
      ingested, duplicates, ignored, incidentIds, failed := 0, 0, 0, [], false;
      for k := 0 to |p.alerts|
        invariant Clean() && !failed
        invariant Delivery(tables, ingested, duplicates, ignored, incidentIds, false) ==
          Deliver(old(tables), p, cfg.window, choices, k)
      {
        ghost var before := tables;
        var alert := p.alerts[k];
        if p.status != "firing" || alert.status != "firing" {
          ignored := ignored + 1;
          continue;
        }
        var req := ToIngestRequest(alert);
        if req.None? {
          failed := true;
          FailedDeliveryStops(old(tables), p, cfg.window, choices, k + 1, |p.alerts|);
          return;
        }
        SoundDeliveries(old(tables), p, choices, k, cfg.hash, cfg.window, now);
        var reply := IngestAlert(req.value, choices(k));
        DuplicateKeeps(before, req.value, cfg.window, choices(k));
        if reply.Aborted? {
          failed := true;
          FailedDeliveryStops(old(tables), p, cfg.window, choices, k + 1, |p.alerts|);
          return;
        }
        if reply.incident !in incidentIds {
          incidentIds := incidentIds + [reply.incident];
        }
        if reply.Duplicate? {
          duplicates := duplicates + 1;
        } else {
          ingested := ingested + 1;
        }
      }
    }

    /******* Investigation records *******/

    method CreateAgentRun(i: Id, now: int) returns (result: Result<Id>)
      modifies `tables
      ensures Answers(Investigation.CreateAgentRun(old(tables), i, now), old(tables), tables, result)
    {
      if i !in tables.incidents {
        return Err(IncidentNotFound);
      }
      var run := TakeId();
      tables := tables.(runs := tables.runs[run := AgentRun(i, RunPending, now, None, None)]);
      AddEvent(i, AgentRunCreated(run));
      result := Ok(run);
    }

    method RecordToolCall(run: Id, source: SourceType, succeeded: bool) returns (result: Result<Id>)
      modifies `tables
      ensures Answers(Investigation.RecordToolCall(old(tables), run, source, succeeded), old(tables), tables, result)
    {
      if run !in tables.runs {
        return Err(RunNotFound);
      }
      var call := TakeId();
      tables := tables.(toolCalls := tables.toolCalls[call := ToolCall(run, source, succeeded)]);
      result := Ok(call);
    }

    method RecordEvidence(run: Id, call: Option<Id>, source: SourceType, name: string) returns (result: Result<Id>)
      modifies `tables
      ensures Answers(Investigation.RecordEvidence(old(tables), run, call, source, name), old(tables), tables, result)
    {
      if run !in tables.runs {
        return Err(RunNotFound);
      }
      if call.Some? {
        if call.value !in tables.toolCalls || tables.toolCalls[call.value].run != run ||
          !tables.toolCalls[call.value].succeeded
        {
          return Err(BadToolCall);
        }
      }
      var i := tables.runs[run].incident;
      var e := TakeId();
      tables := tables.(evidence := tables.evidence[e := Evidence(i, run, call, source, name)]);
      AddEvent(i, EvidenceCollected(run, e));
      result := Ok(e);
    }

    method RecordHypothesis(run: Id, h: HypothesisCreate) returns (result: Result<Id>)
      requires ValidHypothesis(h)
      modifies `tables
      ensures Answers(Investigation.RecordHypothesis(old(tables), run, h), old(tables), tables, result)
    {
      hide CitationsInRun, FoundIn;
      if run !in tables.runs {
        return Err(RunNotFound);
      }
      FoundIsAll(tables, run, h.evidence);
      if FoundIn(tables, run, h.evidence) != h.evidence {
        return Err(BadCitation);
      }
      var id := TakeId();
      tables := tables.(hypotheses := tables.hypotheses[id := Hypothesis(run, h.rootCause, h.summary, h.confidence)]);
      tables := tables.(citations := tables.citations + set e | e in h.evidence :: Citation(id, e, run));
      result := Ok(id);
    }

    method RecordRecommendation(run: Id, r: RecommendationCreate) returns (result: Result<Id>)
      requires ValidRecommendation(r)
      modifies `tables
      ensures Answers(Investigation.RecordRecommendation(old(tables), run, r), old(tables), tables, result)
    {
      if run !in tables.runs {
        return Err(RunNotFound);
      }
      if r.hypothesis !in tables.hypotheses || tables.hypotheses[r.hypothesis].run != run {
        return Err(BadHypothesis);
      }
      if !exists c :: c in tables.citations && c.hypothesis == r.hypothesis {
        return Err(NoCitation);
      }
      var id := TakeId();
      tables := tables.(recommendations :=
        tables.recommendations[id := Recommendation(run, r.hypothesis, r.action, r.parameters)]);
      result := Ok(id);
    }

    /******* Approvals *******/

    method SetStatus(i: Id, status: IncidentStatus)
      requires i in tables.incidents
      modifies `tables
      ensures tables == WithStatus(old(tables), i, status)
    {
      tables := tables.(incidents := tables.incidents[i := tables.incidents[i].(status := status)]);
    }

    method RequestApproval(rec: Id, now: int, choose: RowChoice) returns (result: Result<Id>)
      modifies `tables
      ensures Answers(Gate.RequestApproval(old(tables), cfg.hash, rec, now, choose), old(tables), tables, result)
    {
      hide PendingRow;
      if rec !in tables.recommendations {
        return Err(RecommendationNotFound);
      }
      var r := tables.recommendations[rec];
      if r.action !in ALLOWED_ACTIONS {
        return Err(NotAllowListed);
      }
      var existing := FirstRow(ApprovalsFor(tables, rec), choose);
      if existing.Some? {
        return Ok(existing.value);
      }
      if r.run !in tables.runs {
        return Err(RunNotFound);
      }
      var approval := TakeId();
      tables := tables.(approvals := tables.approvals[approval := PendingRow(cfg.hash, rec, r, now)]);
      var i := tables.runs[r.run].incident;
      if i in tables.incidents {
        SetStatus(i, NeedsApproval);
        AddEvent(i, ApprovalRequested(rec));
      }
      result := Ok(approval);
    }

    method DecideApproval(p: Id, decision: ApprovalStatus, now: int) returns (result: Result<Id>)
      modifies `tables
      ensures Answers(Gate.DecideApproval(old(tables), cfg.hash, p, decision, now), old(tables), tables, result)
    {
      hide ActionDigest;
      if p !in tables.approvals {
        return Err(ApprovalNotFound);
      }
      var a := tables.approvals[p];
      if a.status != ApprovalStatus.Pending {
        return Err(AlreadyDecided);
      }
      if a.expiresAt < now {
        return Err(DecisionTooLate);
      }
      if decision == ApprovalStatus.Pending {
        return Err(BadDecision);
      }
      if ActionDigest(cfg.hash, a.action, a.parameters, a.run) != a.hash {
        return Err(DigestMismatch);
      }
      tables := tables.(approvals := tables.approvals[p := a.(status := decision, decidedAt := Some(now))]);
      if a.run in tables.runs {
        var i := tables.runs[a.run].incident;
        if i in tables.incidents {
          SetStatus(i, if decision == ApprovalStatus.Approved then IncidentStatus.Approved else IncidentStatus.Rejected);
          AddEvent(i, ApprovalDecided(p));
        }
      }
      result := Ok(p);
    }

    /** A failed recovery check is flushed, and then raised. */
    method ExecuteApproval(p: Id, recovered: bool, now: int) returns (result: Result<Id>)
      modifies `tables
      ensures match Gate.ExecuteApproval(old(tables), cfg.hash, p, recovered, now)
        case Blocked(error) => tables == old(tables) && result == Err(error)
        case RecoveryFailed(t) => tables == t && result == Err(RecoveryNotVerified)
        case Executed(t) => tables == t && result == Ok(p)
    {
      hide ActionDigest;
      if p !in tables.approvals {
        return Err(ApprovalNotFound);
      }
      var a := tables.approvals[p];
      if a.status != ApprovalStatus.Approved {
        return Err(NotApproved);
      }
      if a.executedAt.Some? {
        return Err(AlreadyExecuted);
      }
      if a.action !in ALLOWED_ACTIONS {
        return Err(NotAllowListed);
      }
      if ActionDigest(cfg.hash, a.action, a.parameters, a.run) != a.hash {
        return Err(DigestMismatch);
      }
      if a.action != ROLLBACK {
        return Err(NotImplemented);
      }
      if a.run !in tables.runs {
        return Err(RunNotFound);
      }
      var i := tables.runs[a.run].incident;
      if i !in tables.incidents {
        return Err(IncidentNotFound);
      }
      result := CarryOut(p, i, recovered, now);
    }

    /** The incident is executing while the rollback runs; then it is resolved, or failed. */
    method CarryOut(p: Id, i: Id, recovered: bool, now: int) returns (result: Result<Id>)
      requires p in tables.approvals && i in tables.incidents
      modifies `tables
      ensures var t, a := old(tables), old(tables).approvals[p];
        if recovered
        then result == Ok(p) && tables == t.(
          approvals := t.approvals[p := a.(executedAt := Some(now), execution := Some(Succeeded))],
          incidents := t.incidents[i := t.incidents[i].(status := Resolved, resolvedAt := Some(now))],
          events := t.events + [Event(i, RemediationExecuted(p))])
        else result == Err(RecoveryNotVerified) && tables == WithStatus(t, i, IncidentStatus.Failed).(
          approvals := t.approvals[p := a.(executedAt := Some(now), execution := Some(ExecutionStatus.Failed))])
    {
      var row := tables.incidents[i];
      SetStatus(i, Executing);
      if !recovered {
        MarkExecuted(p, ExecutionStatus.Failed, now);
        Overwrite(old(tables).incidents, i, row.(status := Executing), row.(status := IncidentStatus.Failed));
        SetStatus(i, IncidentStatus.Failed);
        return Err(RecoveryNotVerified);
      }
      MarkExecuted(p, Succeeded, now);
      row := tables.incidents[i].(status := Resolved, resolvedAt := Some(now));
      Overwrite(old(tables).incidents, i, tables.incidents[i], row);
      tables := tables.(incidents := tables.incidents[i := row]);
      AddEvent(i, RemediationExecuted(p));
      result := Ok(p);
    }

    method MarkExecuted(p: Id, execution: ExecutionStatus, now: int)
      requires p in tables.approvals
      modifies `tables
      ensures tables == old(tables).(approvals := old(tables).approvals[
        p := old(tables).approvals[p].(executedAt := Some(now), execution := Some(execution))])
    {
      var row := tables.approvals[p].(execution := Some(execution), executedAt := Some(now));
      tables := tables.(approvals := tables.approvals[p := row]);
    }

    /******* Collection *******/

    method StartCollection(i: Id, now: int) returns (run: Id)
      requires i in tables.incidents
      modifies this
      ensures run == old(tables).nextId && tables == StartRun(old(tables), i, now)
      ensures Clean()
    {
      var made := CreateAgentRun(i, now);
      run := made.value;
      var row := tables.runs[run];
      tables := tables.(runs := tables.runs[run := row.(status := RunRunning, startedAt := Some(now))]);
      if tables.incidents[i].status == New {
        SetStatus(i, CollectingEvidence);
      }
      Commit();
    }

    method CompleteRun(run: Id, status: RunStatus, now: int)
      requires run in tables.runs
      modifies `tables
      ensures tables == FinishRun(old(tables), run, status, now)
    {
      var row := tables.runs[run].(status := status, finishedAt := Some(now));
      if row.startedAt.None? {
        row := row.(startedAt := Some(now));
      }
      tables := tables.(runs := tables.runs[run := row]);
    }

    /** Queries one source; what it yields is committed, and an exception ends the request. */
    method QuerySource(run: Id, s: Source) returns (read: Option<SourceRead>)
      requires Clean() && run in tables.runs
      modifies this
      ensures Clean()
      ensures forall results, evidenceIds ::
        CollectSource(Pass(old(tables), results, evidenceIds, false), run, s) ==
          if read.None? then Pass(old(tables), results, evidenceIds, true)
          else Pass(tables, results + [read.value],
                    evidenceIds + (if read.value.evidence.Some? then [read.value.evidence.value] else []), false)
      ensures read.None? ==> tables == old(tables)
    {
      match s.attempt
      case Raised =>
        return None;
      case ConnectorFailed(retryable) =>
        Rollback();
        var call := RecordToolCall(run, s.kind, false);
        Commit();
        return Some(SourceRead(s.kind, s.name, false, call.value, None, Some(retryable)));
      case Fetched =>
        var call := RecordToolCall(run, s.kind, true);
        var stored := RecordEvidence(run, Some(call.value), s.kind, s.name);
        Commit();
        return Some(SourceRead(s.kind, s.name, true, call.value, Some(stored.value), None));
    }

    method CollectIncidentEvidence(i: Id, req: CollectRequest, sources: seq<Source>, now: int)
      returns (result: Result<CollectResponse>)
      requires Clean()
      modifies this
      ensures match Collection.CollectIncidentEvidence(old(tables), i, req, sources, now)
        case NotCollected(error) => tables == old(tables) && result == Err(error)
        case Interrupted(t) => tables == t && result == Err(SourceRaised)
        case Collected(t, response) => tables == t && result == Ok(response)
      ensures Clean()
    {
      hide CollectSource, StartRun, FinishRun;
      if i !in tables.incidents {
        return Err(IncidentNotFound);
      }
      if !ServiceExists(tables, tables.incidents[i].service) {
        return Err(ServiceNotFound);
      }
      var (start, end) := Window(tables.incidents[i].startedAt, req, now);
      var run := StartCollection(i, now);
      ghost var started, queried := tables, QueriedAll(sources, start, end);
      StartedRunExists(old(tables), i, now);
      var results: seq<SourceRead>, evidenceIds: seq<Id> := [], [];
      for k := 0 to |sources|
        invariant Clean()
        invariant Pass(tables, results, evidenceIds, false) == CollectSources(started, run, queried, k)
      {
        var read := QuerySource(run, Queried(sources[k], start, end));
        if read.None? {
          RaisedPassStops(started, run, queried, k + 1, |sources|);
          return Err(SourceRaised);
        }
        results := results + [read.value];
        if read.value.evidence.Some? {
          evidenceIds := evidenceIds + [read.value.evidence.value];
        }
      }
      var status := if evidenceIds != [] then RunCompleted else RunInsufficient;
      CompleteRun(run, status, now);
      Commit();
      result := Ok(CollectResponse(run, status, start, end, results, evidenceIds));
    }

    /******* Analysis *******/

    /** The run is running again, and a new or collecting incident is being analysed. */
    method TakeOver(i: Id, run: Id, now: int)
      requires i in tables.incidents && run in tables.runs
      modifies `tables
      ensures tables == MarkAnalyzing(TakeRun(old(tables), run, now), i)
    {
      var row := tables.runs[run].(status := RunRunning);
      if row.startedAt.None? {
        row := row.(startedAt := Some(now));
      }
      tables := tables.(runs := tables.runs[run := row]);
      if tables.incidents[i].status == New || tables.incidents[i].status == CollectingEvidence {
        SetStatus(i, Analyzing);
      }
    }

    method AnalyzeIncident(i: Id, req: AnalyzeRequest, errorMentioned: bool, now: int, choose: RowChoice)
      returns (result: Result<AnalyzeReply>)
      modifies `tables
      ensures Settles(Analysis.AnalyzeIncident(old(tables), i, req, errorMentioned, now, choose), tables, result)
    {
      hide FinishRun, TakeRun, MarkAnalyzing, RegressionHypothesis, Supported, CitedEvidence, Regression, Confidence,
        RecordRegression;
      if i !in tables.incidents {
        return Err(IncidentNotFound);
      }
      var wanted := RunToAnalyze(tables, i, req.run, choose);
      if wanted.None? {
        return Err(RunNotFound);
      }
      var run := wanted.value;
      if EvidenceOfRun(tables, run) == {} {
        CompleteRun(run, RunInsufficient, now);
        return Ok(AnalyzeReply(run, RunInsufficient, None, None));
      }
      TakingOverKeeps(tables, i, run, now);
      TakeOver(i, run, now);
      SupportedMeans(tables, run, errorMentioned, req.minConfidence);
      var cited := CitedEvidence(tables, run);
      if !Regression(tables, run, errorMentioned) || |cited| < 2 || Confidence(|cited|) < req.minConfidence {
        CompleteRun(run, RunInsufficient, now);
        return Ok(AnalyzeReply(run, RunInsufficient, None, None));
      }
      DraftIsValid(tables, run);
      result := StoreRegression(i, run, now);
    }

    method StoreRegression(i: Id, run: Id, now: int) returns (result: Result<AnalyzeReply>)
      requires run in tables.runs && ValidHypothesis(RegressionHypothesis(tables, run))
      modifies `tables
      ensures Settles(RecordRegression(old(tables), i, run, now), tables, result)
    {
      hide RegressionHypothesis, RollbackProposal, FinishRun, ValidHypothesis, ValidRecommendation,
        Investigation.RecordHypothesis, Investigation.RecordRecommendation;
      var hypothesis := RecordHypothesis(run, RegressionHypothesis(tables, run));
      if hypothesis.Err? {
        return Err(hypothesis.error);
      }
      ProposalIsValid(i, hypothesis.value);
      var recommendation := RecordRecommendation(run, RollbackProposal(i, hypothesis.value));
      if recommendation.Err? {
        return Err(recommendation.error);
      }
      CompleteRun(run, RunCompleted, now);
      result := Ok(AnalyzeReply(run, RunCompleted, Some(hypothesis.value), Some(recommendation.value)));
    }

    /******* Investigation *******/

    /** Collects, runs the graph on what was collected, and stores what came out. */
    method InvestigateIncident(i: Id, req: InvestigateRequest, env: Surroundings)
      returns (result: Result<InvestigateReply>)
      requires Clean()
      modifies this
      ensures match Orchestrator.InvestigateIncident(old(tables), cfg.hash, i, req, env)
        case NotInvestigated(error) => Clean() && tables == old(tables) && result == Err(error)
        case Crashed(t) => committed == t && result.Err?
        case Investigated(t, reply) => tables == t && result == Ok(reply)
    {
      hide Collection.CollectIncidentEvidence, Orchestrator.Conclude;
      if i !in tables.incidents {
        return Err(IncidentNotFound);
      }
      var collected := CollectIncidentEvidence(i, CollectRequest(req.lookback, None), env.sources, env.now);
      if collected.Err? {
        return Err(collected.error);
      }
      result := Conclude(i, collected.value.run, collected.value.evidence, req, env);
    }

    method Conclude(i: Id, run: Id, evidenceIds: seq<Id>, req: InvestigateRequest, env: Surroundings)
      returns (result: Result<InvestigateReply>)
      requires Clean() && i in tables.incidents && run in tables.runs
      requires forall e :: e in evidenceIds ==> e in tables.evidence
      modifies `tables
      ensures match Orchestrator.Conclude(old(tables), cfg.hash, i, run, evidenceIds, req, env)
        case NotInvestigated(_) => false
        case Crashed(t) => committed == t && result.Err?
        case Investigated(t, reply) => tables == t && result == Ok(reply)
    {
      hide MarkAnalyzing, RunGraph, LoadEvidence, Orchestrator.StoreOutcome;
      ghost var taken := HandOver(tables, i, run, env.now);
      TakeOver(i, run, env.now);
      assert tables == taken;
      TakenRunExists(old(tables), i, run, env.now);
      var graph := new Graph(InitialState(i, req.minConfidence, LoadEvidence(tables, evidenceIds)));
      graph.Invoke(env.runbooks, tables.nextId, env.answer);
      result := StoreOutcome(i, run, graph.state, req.autoRequestApproval, env.now, env.choose);
    }

    /** Stores the runbooks the graph found, then its findings. */
    method StoreOutcome(i: Id, run: Id, f: AgentState, auto: bool, now: int, choose: RowChoice)
      returns (result: Result<InvestigateReply>)
      requires run in tables.runs
      modifies `tables
      ensures Settles(Orchestrator.StoreOutcome(old(tables), cfg.hash, i, run, f, auto, now, choose), tables, result)
    {
      hide FinishRun, Orchestrator.StoreFindings;
      for k := 0 to |f.runbooks|
        invariant tables == StoreRunbooks(old(tables), i, run, f.runbooks, k)
      {
        var record := f.runbooks[k];
        if record.id !in tables.evidence {
          tables := tables.(evidence := tables.evidence[record.id := Evidence(i, run, None, Runbook, record.name)]);
          if tables.nextId <= record.id {
            tables := tables.(nextId := record.id + 1);
          }
        }
      }
      if f.status == InsufficientEvidence || f.selected.None? {
        CompleteRun(run, RunInsufficient, now);
        return Ok(InvestigateReply(run, None, None, None));
      }
      result := StoreFindings(run, f, auto, now, choose);
    }

    method StoreFindings(run: Id, f: AgentState, auto: bool, now: int, choose: RowChoice)
      returns (result: Result<InvestigateReply>)
      requires f.selected.Some? && run in tables.runs
      modifies `tables
      ensures Settles(Orchestrator.StoreFindings(old(tables), cfg.hash, run, f, auto, now, choose), tables, result)
    {
      hide FinishRun, ValidHypothesis, HypothesisFrom, Investigation.RecordHypothesis, RecordProposal,
        Gate.RequestApproval;
      var payload := HypothesisFrom(f.selected.value);
      if !ValidHypothesis(payload) {
        return Err(InvalidPayload);
      }
      var hypothesis := RecordHypothesis(run, payload);
      if hypothesis.Err? {
        return Err(hypothesis.error);
      }
      var recommendation := StoreProposal(run, hypothesis.value, f.recommendation);
      if recommendation.Err? {
        return Err(recommendation.error);
      }
      CompleteRun(run, RunCompleted, now);
      var approval: Option<Id> := None;
      if recommendation.value.Some? && auto && f.recommendation.Some? && f.recommendation.value.requiresApproval {
        var requested := RequestApproval(recommendation.value.value, now, choose);
        if requested.Err? {
          return Err(requested.error);
        }
        approval := Some(requested.value);
      }
      result := Ok(InvestigateReply(run, Some(hypothesis.value), recommendation.value, approval));
    }

    method StoreProposal(run: Id, h: Id, d: Option<RecommendationDraft>) returns (result: Result<Option<Id>>)
      requires run in tables.runs
      modifies `tables
      ensures Settles(RecordProposal(old(tables), run, h, d), tables, result)
      ensures run in tables.runs
    {
      if d.None? {
        return Ok(None);
      }
      var payload := RecommendationFrom(d.value, h);
      if !ValidRecommendation(payload) {
        return Err(InvalidPayload);
      }
      var made := RecordRecommendation(run, payload);
      if made.Err? {
        return Err(made.error);
      }
      result := Ok(Some(made.value));
    }

    /******* Requests *******/

    /** A request that raised leaves its session uncommitted. */
    method CommitIf(ok: bool)
      modifies this
      ensures Clean() && committed == if ok then old(tables) else old(committed)
    {
      if ok {
        Commit();
      } else {
        Rollback();
      }
    }

    /** Serves one API request: the committed store moves as the specification says, and stays sound. */
    method Handle(step: Step, now: int)
      requires Clean() && Sound(committed, cfg.hash, cfg.window, now)
      modifies this
      ensures committed == Committed(cfg, old(committed), step, now)
      ensures Clean() && Sound(committed, cfg.hash, cfg.window, now)
    {
      hide Sound, AlertIdsBelow, LinksFit, Ingestion.IngestAlert, Deliver, Collection.CollectIncidentEvidence,
        Analysis.AnalyzeIncident, Orchestrator.InvestigateIncident, Gate.RequestApproval, Gate.DecideApproval,
        Gate.ExecuteApproval;
      StepPreserves(cfg, committed, step, now);
      match step
      case PostAlert(req, choose) =>
        SoundAlerts(tables, cfg.hash, cfg.window, now);
        var _ := IngestAlert(req, choose);
      case PostWebhook(payload, choices) =>
        var _, _, _, _, _ := ReceiveWebhook(payload, choices, now);
      case PostCollect(i, req, sources) =>
        var _ := CollectIncidentEvidence(i, req, sources, now);
      case PostAnalyze(i, req, errorMentioned, choose) =>
        var result := AnalyzeIncident(i, req, errorMentioned, now, choose);
        CommitIf(result.Ok?);
      case PostInvestigate(i, req, _, _, _, _) =>
        var result := InvestigateIncident(i, req, Around(step, now));
        CommitIf(result.Ok?);
      case PostApproval(rec, choose) =>
        var result := RequestApproval(rec, now, choose);
        CommitIf(result.Ok?);
      case PostDecision(p, decision) =>
        var result := DecideApproval(p, decision, now);
        CommitIf(result.Ok?);
      case PostExecution(p, recovered) =>
        var result := ExecuteApproval(p, recovered, now);
        CommitIf(result.Ok?);
    }
  }
}
