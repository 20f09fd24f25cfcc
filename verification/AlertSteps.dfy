/** Preservation of the invariant by alert ingestion. */
module AlertSteps {
  import opened Base
  import opened Schema
  import opened Ingestion
  import opened Correlation
  import opened Gate
  import opened Provenance
  import opened Soundness
  import opened CaseSteps

  /** Ingestion leaves investigations alone; a new incident is NEW. */
  ghost predicate AddsAlert(t: Tables, t': Tables) {
    && t'.runs == t.runs && t'.toolCalls == t.toolCalls && t'.evidence == t.evidence
    && t'.hypotheses == t.hypotheses && t'.citations == t.citations
    && t'.recommendations == t.recommendations && t'.approvals == t.approvals
    && t.nextId <= t'.nextId
    && (forall i :: i in t.incidents ==>
         i in t'.incidents && t'.incidents[i].status == t.incidents[i].status &&
         t'.incidents[i].resolvedAt == t.incidents[i].resolvedAt)
    && (forall i :: i in t'.incidents && i !in t.incidents ==>
         t'.incidents[i].status == New && t'.incidents[i].resolvedAt.None?)
  }

  lemma AddsAlertTwice(t: Tables, u: Tables, v: Tables)
    requires AddsAlert(t, u) && AddsAlert(u, v)
    ensures AddsAlert(t, v)
  {}

  lemma ServiceAdds(t: Tables, name: string)
    ensures AddsAlert(t, GetOrCreateService(t, name).0)
  {}

  lemma OpenAdds(t: Tables, alert: Alert)
    requires AlertIdsBelow(t)
    ensures AddsAlert(t, OpenIncident(t, alert))
  {}

  lemma LinkAdds(t: Tables, alert: Alert, i: Id)
    ensures AddsAlert(t, LinkAlert(t, alert, i))
  {}

  lemma EscalationAdds(t: Tables, i: Id, severity: Severity)
    requires i in t.incidents
    ensures AddsAlert(t, EscalateSeverity(t, i, severity))
  {
    var t' := EscalateSeverity(t, i, severity);
    if t' != t {
      var row := t.incidents[i].(severity := severity);
      assert t'.incidents == t.incidents[i := row];
      RowReplaced(t, t', i, row);
    }
  }

  /** Rewriting an incident row with the same status and resolution. */
  lemma RowReplaced(t: Tables, t': Tables, i: Id, row: Incident)
    requires i in t.incidents && t' == t.(incidents := t.incidents[i := row], events := t'.events)
    requires row.status == t.incidents[i].status && row.resolvedAt == t.incidents[i].resolvedAt
    ensures AddsAlert(t, t')
  {}

  lemma JoinAdds(t: Tables, alert: Alert, i: Id)
    requires i in t.incidents
    ensures AddsAlert(t, JoinIncident(t, alert, i))
  {
    LinkAdds(t, alert, i);
    EscalationAdds(LinkAlert(t, alert, i), i, alert.severity);
    AddsAlertTwice(t, LinkAlert(t, alert, i), JoinIncident(t, alert, i));
  }

  lemma StoreAdds(t: Tables, req: AlertRequest, w: int, choose: RowChoice)
    requires AlertIdsBelow(t)
    ensures AddsAlert(t, StoreAlert(t, req, w, choose).tables)
  {
    var (t1, service) := GetOrCreateService(t, req.serviceName);
    ServiceAdds(t, req.serviceName);
    if StoreAlert(t, req, w, choose).reply.Ingested? {
      StoreAlertPlaces(t, req, w, choose);
      var alert := Alert(req.externalId, service, req.kind, req.severity, req.startedAt);
      var found := FindCorrelatedIncident(t1, service, req.kind, req.startedAt, w, choose);
      if found.None? {
        OpenAdds(t1, alert);
      } else {
        JoinAdds(t1, alert, found.value);
      }
      AddsAlertTwice(t, t1, Place(t1, alert, found));
    }
  }

  lemma AddedAlertFits(t: Tables, t': Tables, hash: Hash, now: int)
    requires AddsAlert(t, t') && RecordIdsBelow(t) && OneApprovalEach(t)
    ensures Grows(t, t') && NewRowsFit(t, t', hash, now)
  {
    hide RunFits, ToolCallFits, EvidenceFits, HypothesisFits, CitationFits, RecommendationFits, BoundToRecommendation,
      LifeFits;
  }

  lemma AddedAlertKeepsRecords(t: Tables, t': Tables, hash: Hash, now: int)
    requires AddsAlert(t, t') && Recorded(t, hash, now)
    ensures Recorded(t', hash, now)
  {
    AddedAlertFits(t, t', hash, now);
    hide AddsAlert, Grows, NewRowsFit;
    RecordsGrow(t, t', hash, now, now);
  }

  lemma AddedAlertKeepsLifecycle(t: Tables, t': Tables)
    requires AddsAlert(t, t') && Lifecycle(t)
    requires forall r :: r in t.runs ==> t.runs[r].incident in t.incidents
    ensures Lifecycle(t')
  {
    forall j | j in t'.incidents ensures StatusFits(t', j) {
      RunsSeenElsewhere(t, t', j);
      if j in t.incidents {
        assert StatusFits(t, j);
        StatusKept(t, t', j);
      } else {
        assert !HasRun(t, j);
      }
    }
  }

  lemma RunsHaveIncidents(t: Tables, hash: Hash, now: int)
    requires Recorded(t, hash, now)
    ensures forall r :: r in t.runs ==> t.runs[r].incident in t.incidents
  {
    forall r | r in t.runs ensures t.runs[r].incident in t.incidents {
      assert RunFits(t, t.runs[r], now);
    }
  }

  lemma TerminalsAreClosed(t: Tables)
    requires Lifecycle(t)
    ensures TerminalIsClosed(t)
  {
    forall i | i in t.incidents && Terminal(t.incidents[i].status) ensures Closed(t, i) {
      assert StatusFits(t, i);
      StatusLeavesTrace(t, i);
    }
  }

  lemma AlertPreserves(t: Tables, req: AlertRequest, hash: Hash, w: int, now: int, choose: RowChoice)
    requires Sound(t, hash, w, now)
    ensures Sound(IngestAlert(t, req, w, choose).tables, hash, w, now)
  {
    TerminalsAreClosed(t);
    IngestPreserves(t, req, w, choose);
    StoreAdds(t, req, w, choose);
    RunsHaveIncidents(t, hash, now);
    var t' := IngestAlert(t, req, w, choose).tables;
    IngestAdds(t, req, w, choose);
    AddedAlertKeepsRecords(t, t', hash, now);
    AddedAlertKeepsLifecycle(t, t');
  }

  lemma IngestAdds(t: Tables, req: AlertRequest, w: int, choose: RowChoice)
    requires AlertIdsBelow(t)
    ensures AddsAlert(t, IngestAlert(t, req, w, choose).tables)
  {
    StoreAdds(t, req, w, choose);
  }
}
