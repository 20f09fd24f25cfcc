/**
  Alert ingestion: deduplication, correlation by a two-sided time window, the severity ratchet and
  the timeline events.
 */
module Ingestion {
  import opened Base
  import opened Schema

  datatype AlertRequest = AlertRequest(
    serviceName: string, kind: string, severity: Severity, startedAt: int, externalId: Option<string>)

  datatype IngestError = MultipleResults | UniqueViolation

  datatype IngestReply =
    | Duplicate(alert: Id, incident: Id, status: IncidentStatus)
    | Ingested(alert: Id, incident: Id, status: IncidentStatus, correlated: bool)
    | Aborted(error: IngestError)

  datatype IngestResult = IngestResult(tables: Tables, reply: IngestReply)

  /******* The operation *******/

  function GetOrCreateService(t: Tables, name: string): (r: (Tables, Id)) {
    if name in t.services then (t, t.services[name])
    else (t.(services := t.services[name := t.nextId], nextId := t.nextId + 1), t.nextId)
  }

  /** Incident i is open, of this service, and holds an alert of this kind inside the window. */
  predicate Correlates(t: Tables, i: Id, service: Id, kind: string, at: int, w: int) {
    i in t.incidents && t.incidents[i].service == service && !Terminal(t.incidents[i].status) &&
    exists l :: l in t.links && l.incident == i && l.alert in t.alerts &&
      t.alerts[l.alert].kind == kind && at - w <= t.alerts[l.alert].startedAt <= at + w
  }

  function LatestCorrelated(t: Tables, service: Id, kind: string, at: int, w: int): set<Id> {
    set i | i in t.incidents && Correlates(t, i, service, kind, at, w) &&
      forall j :: j in t.incidents && Correlates(t, j, service, kind, at, w) ==>
        t.incidents[j].startedAt <= t.incidents[i].startedAt
  }

  function FindCorrelatedIncident(
    t: Tables, service: Id, kind: string, at: int, w: int, choose: RowChoice): (r: Option<Id>)
  {
    FirstRow(LatestCorrelated(t, service, kind, at, w), choose)
  }

  lemma FoundExists(t: Tables, service: Id, kind: string, at: int, w: int, choose: RowChoice)
    ensures var found := FindCorrelatedIncident(t, service, kind, at, w, choose);
      found.Some? ==> found.value in t.incidents
  {}

  /** Rows of the duplicate lookup. */
  function RowsFor(t: Tables, externalId: string): set<Link> {
    set l | l in t.links && l.alert in t.alerts && l.incident in t.incidents &&
      t.alerts[l.alert].externalId == Some(externalId)
  }

  lemma SingletonIsUnique<T>(s: set<T>)
    requires |s| == 1
    ensures exists x :: x in s && forall y :: y in s ==> y == x
  {
    var x :| x in s;
    assert |s - {x}| == 0;
    assert s == {x} + (s - {x});
  }

  function TheOnly(rows: set<Link>): (l: Link)
    requires |rows| == 1
    ensures rows == {l}
  {
    SingletonIsUnique(rows);
    var l :| l in rows && forall m :: m in rows ==> m == l;
    l
  }

  /** The alert opens an incident of its own. */
  function OpenIncident(t: Tables, alert: Alert): Tables {
    var a, i := t.nextId, t.nextId + 1;
    t.(alerts := t.alerts[a := alert],
       incidents := t.incidents[i := Incident(alert.service, alert.severity, New, alert.startedAt, None)],
       links := t.links + {Link(i, a)},
       events := t.events + [Event(i, IncidentCreated(a, alert.severity))],
       nextId := t.nextId + 2)
  }

  /** Severity only ever goes up; a rise is recorded on the timeline. */
  function EscalateSeverity(t: Tables, i: Id, severity: Severity): Tables
    requires i in t.incidents
  {
    var previous := t.incidents[i].severity;
    if Rank(severity) <= Rank(previous) then t
    else
      t.(incidents := t.incidents[i := t.incidents[i].(severity := severity)],
         events := t.events + [Event(i, SeverityEscalated(previous, severity))])
  }

  /** The alert is stored and linked to incident i. */
  function LinkAlert(t: Tables, alert: Alert, i: Id): Tables {
    var a := t.nextId;
    t.(alerts := t.alerts[a := alert],
       links := t.links + {Link(i, a)},
       events := t.events + [Event(i, AlertCorrelated(a))],
       nextId := t.nextId + 1)
  }

  /** The alert joins incident i. */
  function JoinIncident(t: Tables, alert: Alert, i: Id): Tables
    requires i in t.incidents
  {
    EscalateSeverity(LinkAlert(t, alert, i), i, alert.severity)
  }

  predicate ExternalIdTaken(t: Tables, externalId: Option<string>) {
    externalId.Some? && exists a :: a in t.alerts && t.alerts[a].externalId == externalId
  }

  /** Stores an alert that the duplicate lookup did not find. */
  function StoreAlert(t: Tables, req: AlertRequest, w: int, choose: RowChoice): IngestResult {
    var (t1, service) := GetOrCreateService(t, req.serviceName);
    if ExternalIdTaken(t1, req.externalId) then IngestResult(t, Aborted(UniqueViolation))
    else
      var alert := Alert(req.externalId, service, req.kind, req.severity, req.startedAt);
      match FindCorrelatedIncident(t1, service, req.kind, req.startedAt, w, choose)
      case None => IngestResult(OpenIncident(t1, alert), Ingested(t1.nextId, t1.nextId + 1, New, false))
      case Some(i) => IngestResult(JoinIncident(t1, alert, i), Ingested(t1.nextId, i, t1.incidents[i].status, true))
  }

  function IngestAlert(t: Tables, req: AlertRequest, w: int, choose: RowChoice): IngestResult {
    var rows := if req.externalId.Some? && req.externalId.value != "" then RowsFor(t, req.externalId.value) else {};
    if |rows| > 1 then IngestResult(t, Aborted(MultipleResults))
    else if |rows| == 1 then
      var l := TheOnly(rows);
      IngestResult(t, Duplicate(l.alert, l.incident, t.incidents[l.incident].status))
    else StoreAlert(t, req, w, choose)
  }
}
