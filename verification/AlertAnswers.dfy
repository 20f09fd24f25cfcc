/** What ingesting an alert, or a webhook alert, answers and stores: in rows of the store and fields of the request. */
module AlertAnswers {
  import opened Base
  import opened Schema
  import opened Ingestion
  import opened Correlation
  import opened IncidentShape
  import opened SnakeCase
  import opened Webhook

  /** Alert b of open incident j has the requested service and kind, and starts within w of the request. */
  ghost predicate Neighbour(t: Tables, req: AlertRequest, w: int, j: Id, b: Id) {
    && j in t.incidents && Link(j, b) in t.links && b in t.alerts
    && req.serviceName in t.services && t.incidents[j].service == t.services[req.serviceName]
    && t.incidents[j].status != Resolved && t.incidents[j].status != Completed
    && t.incidents[j].status != IncidentStatus.Rejected && t.incidents[j].status != IncidentStatus.Failed
    && t.alerts[b].kind == req.kind && -w <= t.alerts[b].startedAt - req.startedAt <= w
  }

  ghost predicate HasNeighbour(t: Tables, req: AlertRequest, w: int) {
    exists j, b :: Neighbour(t, req, w, j, b)
  }

  /** Incident i has such an alert, and no incident that has one started later. */
  ghost predicate LatestNeighbour(t: Tables, req: AlertRequest, w: int, i: Id) {
    && i in t.incidents && (exists b :: Neighbour(t, req, w, i, b))
    && forall j, b :: Neighbour(t, req, w, j, b) ==> t.incidents[j].startedAt <= t.incidents[i].startedAt
  }

  /** Low, medium, high and critical, in this order. */
  lemma RanksAreOrdered()
    ensures Rank(Low) < Rank(Medium) < Rank(High) < Rank(Critical)
  {}

  /** Alert a is new, holds what was requested, and is linked to incident i; nothing else is added. */
  ghost predicate AlertIsStored(t: Tables, u: Tables, req: AlertRequest, a: Id, i: Id) {
    && a !in t.alerts
    && req.serviceName in u.services
    && (forall s :: s in t.services ==> s in u.services && u.services[s] == t.services[s])
    && u.alerts == t.alerts[
         a := Alert(req.externalId, u.services[req.serviceName], req.kind, req.severity, req.startedAt)]
    && u.links == t.links + {Link(i, a)}
  }

  /** The incident the alert joined, at least as severe as before and as the alert. */
  ghost predicate IncidentIsJoined(t: Tables, u: Tables, req: AlertRequest, i: Id) {
    i in t.incidents && u.incidents == t.incidents[i := t.incidents[i].(
      severity := if Rank(t.incidents[i].severity) < Rank(req.severity) then req.severity else t.incidents[i].severity)]
  }

  /** The incident the alert opened. */
  ghost predicate IncidentIsOpened(t: Tables, u: Tables, req: AlertRequest, i: Id) {
    i !in t.incidents && req.serviceName in u.services && u.incidents == t.incidents[
      i := Incident(u.services[req.serviceName], req.severity, New, req.startedAt, None)]
  }

  /** The external id of the request is already the one of alert a. */
  predicate SameExternalId(t: Tables, req: AlertRequest, a: Id) {
    req.externalId.Some? && a in t.alerts && t.alerts[a].externalId == req.externalId
  }

  /** The whole answer: what it is, what it stores, and when. */
  ghost predicate AnsweredExactly(t: Tables, req: AlertRequest, w: int, r: IngestResult) {
    match r.reply
    case Aborted(_) => r.tables == t && req.externalId == Some("") && exists a :: SameExternalId(t, req, a)
    case Duplicate(a, i, status) =>
      r.tables == t && req.externalId != Some("") && SameExternalId(t, req, a) &&
      Link(i, a) in t.links && i in t.incidents && status == t.incidents[i].status
    case Ingested(a, i, status, correlated) =>
      (forall b :: !SameExternalId(t, req, b)) && AlertIsStored(t, r.tables, req, a, i) &&
      (correlated <==> HasNeighbour(t, req, w)) &&
      if correlated
      then LatestNeighbour(t, req, w, i) && IncidentIsJoined(t, r.tables, req, i) && status == t.incidents[i].status
      else IncidentIsOpened(t, r.tables, req, i) && status == New
  }

  /******* Correlation in rows *******/

  lemma CorrelatedHasNeighbour(t: Tables, req: AlertRequest, w: int, j: Id)
    requires AlertIdsBelow(t) && ServicesKnown(t)
    ensures var (t1, service) := GetOrCreateService(t, req.serviceName);
      Correlates(t1, j, service, req.kind, req.startedAt, w) ==> exists b :: Neighbour(t, req, w, j, b)
  {
    var (t1, service) := GetOrCreateService(t, req.serviceName);
    if Correlates(t1, j, service, req.kind, req.startedAt, w) {
      assert KnownService(t, t.incidents[j].service);
      var l :| l in t.links && l.incident == j && l.alert in t.alerts && t.alerts[l.alert].kind == req.kind &&
        req.startedAt - w <= t.alerts[l.alert].startedAt <= req.startedAt + w;
      assert l == Link(j, l.alert);
      assert Neighbour(t, req, w, j, l.alert);
    }
  }

  lemma NeighbourCorrelates(t: Tables, req: AlertRequest, w: int, j: Id, b: Id)
    requires Neighbour(t, req, w, j, b)
    ensures var (t1, service) := GetOrCreateService(t, req.serviceName);
      Correlates(t1, j, service, req.kind, req.startedAt, w)
  {
    assert Link(j, b).alert == b;
  }

  /** What the query finds, in rows: nothing without a neighbour, and else the latest incident that has one. */
  lemma FoundIsLatestNeighbour(t: Tables, req: AlertRequest, w: int, choose: RowChoice)
    requires AlertIdsBelow(t) && ServicesKnown(t)
    ensures var (t1, service) := GetOrCreateService(t, req.serviceName);
      var found := FindCorrelatedIncident(t1, service, req.kind, req.startedAt, w, choose);
      (found.Some? <==> HasNeighbour(t, req, w)) && (found.Some? ==> LatestNeighbour(t, req, w, found.value))
  {
    hide AlertIdsBelow, ServicesKnown, Correlates, Neighbour, FindCorrelatedIncident;
    var (t1, service) := GetOrCreateService(t, req.serviceName);
    var found := FindCorrelatedIncident(t1, service, req.kind, req.startedAt, w, choose);
    FoundIsLatest(t1, service, req.kind, req.startedAt, w, choose);
    FoundExists(t1, service, req.kind, req.startedAt, w, choose);
    assert t1.incidents == t.incidents;
    if found.Some? {
      CorrelatedHasNeighbour(t, req, w, found.value);
    }
    forall j, b | Neighbour(t, req, w, j, b) ensures Correlates(t1, j, service, req.kind, req.startedAt, w) {
      NeighbourCorrelates(t, req, w, j, b);
    }
  }

  /******* The answer *******/

  /** The service is there, its id below the ids to come; alerts, incidents and links are as they were. */
  ghost predicate WithService(t: Tables, t1: Tables, name: string, service: Id) {
    && t1.alerts == t.alerts && t1.incidents == t.incidents && t1.links == t.links
    && name in t1.services && t1.services[name] == service
    && (forall s :: s in t.services ==> s in t1.services && t1.services[s] == t.services[s])
    && t1.nextId !in t.alerts && t1.nextId + 1 !in t.incidents
  }

  lemma ServiceIsThere(t: Tables, name: string)
    requires AlertIdsBelow(t)
    ensures var (t1, service) := GetOrCreateService(t, name); WithService(t, t1, name, service)
  {
    if name !in t.services {
      hide WithService;
      AddedServiceIsThere(t, GetOrCreateService(t, name).0, name);
    }
  }

  lemma AddedServiceIsThere(t: Tables, t1: Tables, name: string)
    requires AlertIdsBelow(t) && ServiceAdded(t, t1, name)
    ensures WithService(t, t1, name, t.nextId)
  {}

  lemma OpeningStores(t: Tables, t1: Tables, req: AlertRequest, service: Id)
    requires WithService(t, t1, req.serviceName, service)
    ensures var u := OpenIncident(t1, Alert(req.externalId, service, req.kind, req.severity, req.startedAt));
      AlertIsStored(t, u, req, t1.nextId, t1.nextId + 1) && IncidentIsOpened(t, u, req, t1.nextId + 1)
  {}

  lemma JoiningStores(t: Tables, t1: Tables, req: AlertRequest, service: Id, i: Id)
    requires WithService(t, t1, req.serviceName, service) && i in t.incidents
    ensures var u := JoinIncident(t1, Alert(req.externalId, service, req.kind, req.severity, req.startedAt), i);
      AlertIsStored(t, u, req, t1.nextId, i) && IncidentIsJoined(t, u, req, i)
  {
    var alert := Alert(req.externalId, service, req.kind, req.severity, req.startedAt);
    JoinShape(t1, alert, i);
    hide JoinIncident, ReplayOf, ReplayJoined;
    JoinedRows(t, t1, JoinIncident(t1, alert, i), req, service, i);
  }

  lemma JoinedRows(t: Tables, t1: Tables, u: Tables, req: AlertRequest, service: Id, i: Id)
    requires WithService(t, t1, req.serviceName, service)
    requires Joins(t1, u, Alert(req.externalId, service, req.kind, req.severity, req.startedAt), i)
    ensures AlertIsStored(t, u, req, t1.nextId, i) && IncidentIsJoined(t, u, req, i)
  {
    hide ReplayOf, ReplayJoined;
  }

  lemma StoringAnswersExactly(t: Tables, req: AlertRequest, w: int, choose: RowChoice)
    requires AlertIdsBelow(t) && ServicesKnown(t) && forall b :: !SameExternalId(t, req, b)
    ensures AnsweredExactly(t, req, w, StoreAlert(t, req, w, choose))
  {
    var (t1, service) := GetOrCreateService(t, req.serviceName);
    FoundIsLatestNeighbour(t, req, w, choose);
    ServiceIsThere(t, req.serviceName);
    assert !ExternalIdTaken(t1, req.externalId) by {
      if a :| a in t.alerts && t.alerts[a].externalId == req.externalId { assert !SameExternalId(t, req, a); }
    }
    hide AlertIdsBelow, ServicesKnown, FindCorrelatedIncident, OpenIncident, JoinIncident, HasNeighbour, LatestNeighbour,
      AlertIsStored, IncidentIsJoined, IncidentIsOpened, ExternalIdTaken, WithService;
    var found := FindCorrelatedIncident(t1, service, req.kind, req.startedAt, w, choose);
    if found.None? {
      OpeningStores(t, t1, req, service);
    } else {
      FoundExists(t1, service, req.kind, req.startedAt, w, choose);
      JoiningStores(t, t1, req, service, found.value);
    }
  }

  lemma LookupAnswers(t: Tables, req: AlertRequest)
    requires LinksFit(t) && Partitioned(t) && ExternalIdsUnique(t)
    requires req.externalId.Some? && req.externalId.value != ""
    ensures var rows := RowsFor(t, req.externalId.value);
      |rows| <= 1 && (rows == {} <==> forall b :: !SameExternalId(t, req, b)) &&
      (|rows| == 1 ==>
         var l := TheOnly(rows);
         SameExternalId(t, req, l.alert) && Link(l.incident, l.alert) in t.links && l.incident in t.incidents)
  {
    LookupIsExact(t, req.externalId.value);
    hide LinksFit, Partitioned, ExternalIdsUnique;
    var rows := RowsFor(t, req.externalId.value);
    if |rows| == 1 {
      var l := TheOnly(rows);
      assert l in rows && Link(l.incident, l.alert) == l;
    }
    if a :| a in t.alerts && t.alerts[a].externalId == req.externalId { assert SameExternalId(t, req, a); }
  }

  /** Every answer of an ingestion, exactly. */
  lemma IngestAnswersExactly(t: Tables, req: AlertRequest, w: int, choose: RowChoice)
    requires AlertIdsBelow(t) && ServicesKnown(t) && LinksFit(t) && Partitioned(t) && ExternalIdsUnique(t)
    ensures AnsweredExactly(t, req, w, IngestAlert(t, req, w, choose))
  {
    IngestAbortsExactly(t, req, w, choose);
    hide AlertIdsBelow, ServicesKnown, LinksFit, Partitioned, ExternalIdsUnique, StoreAlert, RowsFor, HasNeighbour,
      LatestNeighbour, AlertIsStored, IncidentIsJoined, IncidentIsOpened;
    if req.externalId.Some? && req.externalId.value != "" {
      LookupAnswers(t, req);
    }
    if forall b :: !SameExternalId(t, req, b) {
      StoringAnswersExactly(t, req, w, choose);
    } else if req.externalId == Some("") {
      RepeatedEmptyIdAborts(t, req, w, choose);
    }
  }

  lemma RepeatedEmptyIdAborts(t: Tables, req: AlertRequest, w: int, choose: RowChoice)
    requires req.externalId == Some("") && !forall b :: !SameExternalId(t, req, b)
    ensures IngestAlert(t, req, w, choose) == IngestResult(t, Aborted(UniqueViolation))
  {
    var a :| SameExternalId(t, req, a);
    assert a in t.alerts && t.alerts[a].externalId == req.externalId;
    hide FindCorrelatedIncident, OpenIncident, JoinIncident;
    assert ExternalIdTaken(GetOrCreateService(t, req.serviceName).0, req.externalId);
  }

  /******* Webhook alerts *******/

  predicate Given(labels: map<string, string>, key: string) {
    key in labels && labels[key] != ""
  }

  ghost predicate FirstGiven(labels: map<string, string>, keys: seq<string>, k: int) {
    0 <= k < |keys| && Given(labels, keys[k]) && forall j :: 0 <= j < k ==> !Given(labels, keys[j])
  }

  /** The text of the first of the labels that is given and not empty, or else the fallback. */
  ghost predicate NamedBy(labels: map<string, string>, keys: seq<string>, fallback: string, name: string) {
    if exists k :: 0 <= k < |keys| && Given(labels, keys[k])
    then exists k :: FirstGiven(labels, keys, k) && name == labels[keys[k]]
    else name == fallback
  }

  const SERVICE_LABELS := ["service_name", "service", "job"]
  const KIND_LABELS := ["alert_type", "alertname"]

  ghost predicate ServiceNamed(a: WebhookAlert, name: string) {
    NamedBy(a.labels, SERVICE_LABELS, "unknown-service", name)
  }

  ghost predicate KindNamed(a: WebhookAlert, name: string) {
    NamedBy(a.labels, KIND_LABELS, "unknown_alert", name)
  }

  /** Critical, high and low for their three names in any case, and medium for everything else. */
  predicate SeverityNamed(a: WebhookAlert, severity: Severity) {
    var text := if "severity" in a.labels then Lower(a.labels["severity"]) else "";
    && (severity == Critical <==> text == "critical")
    && (severity == High <==> text == "warning")
    && (severity == Low <==> text == "info")
  }

  /** Fingerprint and start, cut to what the column holds; none without a fingerprint. */
  predicate ExternalIdNamed(a: WebhookAlert, externalId: Option<string>) {
    if a.fingerprint.None? || a.fingerprint.value == "" then externalId.None?
    else
      var full := "alertmanager:" + a.fingerprint.value + ":" + a.startsAtText;
      externalId.Some? && externalId.value <= full && |externalId.value| == if |full| < 128 then |full| else 128
  }

  /** Row x of the store is this webhook alert. */
  ghost predicate IsRowOf(u: Tables, a: WebhookAlert, x: Id) {
    && x in u.alerts
    && (exists s :: ServiceNamed(a, s) && s in u.services && u.services[s] == u.alerts[x].service)
    && (exists name :: KindNamed(a, name) && u.alerts[x].kind == ToSnakeCase(name))
    && SeverityNamed(a, u.alerts[x].severity)
    && u.alerts[x].startedAt == a.startsAt
    && ExternalIdNamed(a, u.alerts[x].externalId)
  }

  /** The request a webhook alert is converted to. */
  ghost predicate IsRequestOf(req: AlertRequest, a: WebhookAlert) {
    && ServiceNamed(a, req.serviceName)
    && (exists name :: KindNamed(a, name) && req.kind == ToSnakeCase(name))
    && SeverityNamed(a, req.severity)
    && req.startedAt == a.startsAt
    && ExternalIdNamed(a, req.externalId)
  }

  function ServiceText(a: WebhookAlert): string {
    FirstOf(FirstOf(FirstOf(Label(a.labels, "service_name"), Label(a.labels, "service")), Label(a.labels, "job")),
            "unknown-service")
  }

  function KindText(a: WebhookAlert): string {
    FirstOf(FirstOf(Label(a.labels, "alert_type"), Label(a.labels, "alertname")), "unknown_alert")
  }

  lemma NamedByIsUnique(
    labels: map<string, string>, keys: seq<string>, fallback: string, name: string, other: string)
    requires NamedBy(labels, keys, fallback, name) && NamedBy(labels, keys, fallback, other)
    ensures name == other
  {
    if k :| 0 <= k < |keys| && Given(labels, keys[k]) {
      var j :| FirstGiven(labels, keys, j) && name == labels[keys[j]];
      var l :| FirstGiven(labels, keys, l) && other == labels[keys[l]];
      assert j == l;
    }
  }

  lemma NamedByOne(labels: map<string, string>, keys: seq<string>, fallback: string, k: nat)
    requires FirstGiven(labels, keys, k)
    ensures NamedBy(labels, keys, fallback, labels[keys[k]])
  {}

  lemma ServiceIsNamed(a: WebhookAlert)
    ensures ServiceNamed(a, ServiceText(a))
  {
    assert SERVICE_LABELS[0] == "service_name" && SERVICE_LABELS[1] == "service" && SERVICE_LABELS[2] == "job";
    if Given(a.labels, "service_name") {
      NamedByOne(a.labels, SERVICE_LABELS, "unknown-service", 0);
    } else if Given(a.labels, "service") {
      NamedByOne(a.labels, SERVICE_LABELS, "unknown-service", 1);
    } else if Given(a.labels, "job") {
      NamedByOne(a.labels, SERVICE_LABELS, "unknown-service", 2);
    }
  }

  lemma KindIsNamed(a: WebhookAlert)
    ensures KindNamed(a, KindText(a))
  {
    assert KIND_LABELS[0] == "alert_type" && KIND_LABELS[1] == "alertname";
    if Given(a.labels, "alert_type") {
      NamedByOne(a.labels, KIND_LABELS, "unknown_alert", 0);
    } else if Given(a.labels, "alertname") {
      NamedByOne(a.labels, KIND_LABELS, "unknown_alert", 1);
    }
  }

  lemma SeverityIsNamed(a: WebhookAlert)
    ensures SeverityNamed(a, SeverityOf(Label(a.labels, "severity")))
  {
    assert Lower("") == "";
  }

  lemma ExternalIdIsNamed(a: WebhookAlert)
    ensures ExternalIdNamed(a, ExternalIdOf(a))
  {}

  /** The conversion, in labels: what the request holds, and that only the lengths of two texts can refuse it. */
  lemma ConvertsExactly(a: WebhookAlert, service: string, name: string)
    requires ServiceNamed(a, service) && KindNamed(a, name)
    ensures ToIngestRequest(a).Some? <==> |service| <= 128 && 0 < |ToSnakeCase(name)| <= 64
    ensures ToIngestRequest(a).Some? ==> IsRequestOf(ToIngestRequest(a).value, a)
  {
    hide NamedBy, SeverityNamed, SeverityOf, ExternalIdNamed, ExternalIdOf, ToSnakeCase, FirstOf, Label;
    ServiceIsNamed(a);
    KindIsNamed(a);
    SeverityIsNamed(a);
    ExternalIdIsNamed(a);
    NamedByIsUnique(a.labels, SERVICE_LABELS, "unknown-service", service, ServiceText(a));
    NamedByIsUnique(a.labels, KIND_LABELS, "unknown_alert", name, KindText(a));
  }

  lemma StoredRequestIsRow(t: Tables, u: Tables, req: AlertRequest, a: WebhookAlert, x: Id, i: Id)
    requires AlertIsStored(t, u, req, x, i) && IsRequestOf(req, a)
    ensures IsRowOf(u, a, x)
  {
    hide NamedBy, SeverityNamed, ExternalIdNamed, ToSnakeCase;
  }

  /** A webhook alert counted as ingested was firing, and left a new row that is this alert. */
  lemma IngestedLeavesRow(d: Delivery, p: Payload, a: WebhookAlert, w: int, choose: RowChoice) returns (x: Id)
    requires Ready(d.tables) && ServicesKnown(d.tables)
    requires DeliverAlert(d, p, a, w, choose).ingested > d.ingested
    ensures p.status == "firing" && a.status == "firing"
    ensures x !in d.tables.alerts && IsRowOf(DeliverAlert(d, p, a, w, choose).tables, a, x)
  {
    hide IngestAlert, ToIngestRequest, AlertIdsBelow, LinksFit, Partitioned, ExternalIdsUnique, ServicesKnown, IsRowOf,
      IsRequestOf, IncidentIsJoined, IncidentIsOpened, HasNeighbour, LatestNeighbour;
    var req := ToIngestRequest(a).value;
    var r := IngestAlert(d.tables, req, w, choose);
    x := r.reply.alert;
    ServiceIsNamed(a);
    KindIsNamed(a);
    ConvertsExactly(a, ServiceText(a), KindText(a));
    IngestAnswersExactly(d.tables, req, w, choose);
    StoredRequestIsRow(d.tables, r.tables, req, a, x, r.reply.incident);
  }
}
