/** The Alertmanager webhook: each firing alert is converted and ingested in a transaction of its own. */
module Webhook {
  import opened Base
  import opened Schema
  import opened Ingestion
  import opened Correlation
  import opened IncidentShape
  import opened SnakeCase

  /** `startsAtText` is the ISO form of the start time. */
  datatype WebhookAlert = WebhookAlert(
    status: string, labels: map<string, string>, startsAt: int, startsAtText: string, fingerprint: Option<string>)

  datatype Payload = Payload(status: string, alerts: seq<WebhookAlert>)

  /******* Conversion *******/

  function Label(labels: map<string, string>, key: string): string {
    if key in labels then labels[key] else ""
  }

  /** The first of the texts that is not empty. */
  function FirstOf(a: string, b: string): string {
    if a != "" then a else b
  }

  function SeverityOf(name: string): Severity {
    var text := Lower(name);
    if text == "info" then Low
    else if text == "warning" then High
    else if text == "critical" then Critical
    else Medium
  }

  function Take(s: string, n: nat): string {
    if |s| <= n then s else s[..n]
  }

  function ExternalIdOf(a: WebhookAlert): Option<string> {
    if a.fingerprint.Some? && a.fingerprint.value != ""
    then Some(Take("alertmanager:" + a.fingerprint.value + ":" + a.startsAtText, 128))
    else None
  }

  /** The part of an external id that can differ between alerts. */
  function Fingerprint(a: WebhookAlert): string {
    (if a.fingerprint.Some? then a.fingerprint.value else "") + ":" + a.startsAtText
  }

  /** Two fingerprinted alerts count as one exactly when fingerprint and start agree in what the column can hold. */
  lemma ExternalIdsAgreeExactly(a: WebhookAlert, b: WebhookAlert)
    requires ExternalIdOf(a).Some? && ExternalIdOf(b).Some?
    ensures ExternalIdOf(a) == ExternalIdOf(b) <==> Take(Fingerprint(a), 115) == Take(Fingerprint(b), 115)
  {
    TakeOfAppended("alertmanager:", Fingerprint(a));
    TakeOfAppended("alertmanager:", Fingerprint(b));
    var x, y := Take(Fingerprint(a), 115), Take(Fingerprint(b), 115);
    assert ("alertmanager:" + x)[13..] == x && ("alertmanager:" + y)[13..] == y;
    assert "alertmanager:" + a.fingerprint.value + ":" + a.startsAtText == "alertmanager:" + Fingerprint(a);
    assert "alertmanager:" + b.fingerprint.value + ":" + b.startsAtText == "alertmanager:" + Fingerprint(b);
  }

  lemma TakeOfAppended(head: string, s: string)
    requires |head| == 13
    ensures Take(head + s, 128) == head + Take(s, 115)
  {
    if |s| > 115 {
      assert (head + s)[..128] == head + s[..115];
    }
  }

  /** Fingerprints of one length that fit the column identify alerts by fingerprint and start. */
  lemma FittingFingerprintsIdentify(a: WebhookAlert, b: WebhookAlert)
    requires ExternalIdOf(a).Some? && ExternalIdOf(b).Some?
    requires |a.fingerprint.value| == |b.fingerprint.value|
    requires |Fingerprint(a)| <= 115 && |Fingerprint(b)| <= 115
    ensures ExternalIdOf(a) == ExternalIdOf(b) <==>
      a.fingerprint == b.fingerprint && a.startsAtText == b.startsAtText
  {
    ExternalIdsAgreeExactly(a, b);
    var n := |a.fingerprint.value|;
    assert Fingerprint(a)[..n] == a.fingerprint.value && Fingerprint(a)[n + 1..] == a.startsAtText;
    assert Fingerprint(b)[..n] == b.fingerprint.value && Fingerprint(b)[n + 1..] == b.startsAtText;
  }

  /** No request if the service name or the normalised alert name has a length the schema refuses. */
  function ToIngestRequest(a: WebhookAlert): Option<AlertRequest> {
    var service := FirstOf(FirstOf(FirstOf(Label(a.labels, "service_name"), Label(a.labels, "service")),
                                   Label(a.labels, "job")), "unknown-service");
    var kind := ToSnakeCase(FirstOf(FirstOf(Label(a.labels, "alert_type"), Label(a.labels, "alertname")), "unknown_alert"));
    if |service| > 128 || kind == "" || |kind| > 64 then None
    else Some(AlertRequest(service, kind, SeverityOf(Label(a.labels, "severity")), a.startsAt, ExternalIdOf(a)))
  }

  /******* Delivery *******/

  /** Tables and counters after some of the alerts; a failed request keeps what it had committed. */
  datatype Delivery = Delivery(
    tables: Tables, ingested: nat, duplicates: nat, ignored: nat, incidents: seq<Id>, failed: bool)

  predicate Firing(p: Payload, a: WebhookAlert) {
    p.status == "firing" && a.status == "firing"
  }

  function Noted(incidents: seq<Id>, i: Id): seq<Id> {
    if i in incidents then incidents else incidents + [i]
  }

  function DeliverAlert(d: Delivery, p: Payload, a: WebhookAlert, w: int, choose: RowChoice): Delivery {
    if !Firing(p, a) then d.(ignored := d.ignored + 1)
    else
      match ToIngestRequest(a)
      case None => d.(failed := true)
      case Some(req) =>
        var result := IngestAlert(d.tables, req, w, choose);
        match result.reply
        case Aborted(_) => d.(failed := true)
        case Duplicate(_, i, _) => d.(duplicates := d.duplicates + 1, incidents := Noted(d.incidents, i))
        case Ingested(_, i, _, _) =>
          d.(tables := result.tables, ingested := d.ingested + 1, incidents := Noted(d.incidents, i))
  }

  /** The first n alerts, with a row choice for each. */
  function Deliver(t: Tables, p: Payload, w: int, choose: nat -> RowChoice, n: nat): Delivery
    requires n <= |p.alerts|
  {
    if n == 0 then Delivery(t, 0, 0, 0, [], false)
    else
      var d := Deliver(t, p, w, choose, n - 1);
      if d.failed then d else DeliverAlert(d, p, p.alerts[n - 1], w, choose(n - 1))
  }

  /******* Accounting *******/

  predicate NoRepeats(s: seq<Id>) {
    forall j, k :: 0 <= j < k < |s| ==> s[j] != s[k]
  }

  /** Every alert is counted once, and no incident is listed twice. */
  lemma {:induction false} DeliveryAddsUp(t: Tables, p: Payload, w: int, choose: nat -> RowChoice, n: nat)
    requires n <= |p.alerts|
    ensures var d := Deliver(t, p, w, choose, n);
      NoRepeats(d.incidents) && (!d.failed ==> n == d.ingested + d.duplicates + d.ignored)
  {
    hide IngestAlert, ToIngestRequest;
    if n > 0 {
      DeliveryAddsUp(t, p, w, choose, n - 1);
    }
  }

  /******* Redelivery *******/

  /** Alerts and links of t are still there in t'. */
  ghost predicate Remembers(t: Tables, t': Tables) {
    && (forall a :: a in t.alerts ==> a in t'.alerts && t'.alerts[a] == t.alerts[a])
    && t.links <= t'.links
    && t.incidents.Keys <= t'.incidents.Keys
  }

  lemma RemembersIsTransitive(t: Tables, u: Tables, v: Tables)
    requires Remembers(t, u) && Remembers(u, v)
    ensures Remembers(t, v)
  {}

  /** The alert with this external id is stored, in incident i. */
  ghost predicate StoredIn(t: Tables, externalId: string, i: Id) {
    exists a :: a in t.alerts && t.alerts[a].externalId == Some(externalId) && Link(i, a) in t.links && i in t.incidents
  }

  lemma StoredStays(t: Tables, t': Tables, externalId: string, i: Id)
    requires Remembers(t, t') && StoredIn(t, externalId, i)
    ensures StoredIn(t', externalId, i)
  {
    var a :| a in t.alerts && t.alerts[a].externalId == Some(externalId) && Link(i, a) in t.links && i in t.incidents;
    assert a in t'.alerts;
  }

  lemma OpenRemembers(t: Tables, alert: Alert)
    requires AlertIdsBelow(t)
    ensures var t' := OpenIncident(t, alert);
      Remembers(t, t') && (alert.externalId.Some? ==> StoredIn(t', alert.externalId.value, t.nextId + 1))
  {
    assert Link(t.nextId + 1, t.nextId) in OpenIncident(t, alert).links;
  }

  lemma JoinRemembers(t: Tables, t': Tables, alert: Alert, i: Id)
    requires AlertIdsBelow(t) && Joins(t, t', alert, i)
    ensures Remembers(t, t') && (alert.externalId.Some? ==> StoredIn(t', alert.externalId.value, i))
  {
    assert Link(i, t.nextId) in t'.links;
  }

  lemma ServiceRemembers(t: Tables, name: string)
    requires AlertIdsBelow(t)
    ensures Remembers(t, GetOrCreateService(t, name).0) && AlertIdsBelow(GetOrCreateService(t, name).0)
  {
    var t' := GetOrCreateService(t, name).0;
    if name !in t.services {
      AddedServiceRemembers(t, t', name);
    }
  }

  lemma AddedServiceRemembers(t: Tables, t': Tables, name: string)
    requires AlertIdsBelow(t) && ServiceAdded(t, t', name)
    ensures Remembers(t, t') && AlertIdsBelow(t')
  {}

  lemma StoreRemembers(t: Tables, req: AlertRequest, w: int, choose: RowChoice)
    requires AlertIdsBelow(t) && StoreAlert(t, req, w, choose).reply.Ingested?
    ensures var r := StoreAlert(t, req, w, choose);
      Remembers(t, r.tables) && (req.externalId.Some? ==> StoredIn(r.tables, req.externalId.value, r.reply.incident))
  {
    var (t1, service) := GetOrCreateService(t, req.serviceName);
    var alert := Alert(req.externalId, service, req.kind, req.severity, req.startedAt);
    var found := FindCorrelatedIncident(t1, service, req.kind, req.startedAt, w, choose);
    StoreAlertPlaces(t, req, w, choose);
    ServiceRemembers(t, req.serviceName);
    var t2 := Place(t1, alert, found);
    hide OpenIncident, JoinIncident, Correlates;
    if found.None? {
      OpenRemembers(t1, alert);
    } else {
      JoinShape(t1, alert, found.value);
      JoinRemembers(t1, t2, alert, found.value);
    }
    RemembersIsTransitive(t, t1, t2);
  }

  lemma IngestRemembers(t: Tables, req: AlertRequest, w: int, choose: RowChoice)
    requires AlertIdsBelow(t)
    ensures var r := IngestAlert(t, req, w, choose);
      Remembers(t, r.tables) &&
      (!r.reply.Aborted? && req.externalId.Some? && req.externalId.value != "" ==>
         StoredIn(r.tables, req.externalId.value, r.reply.incident))
  {
    hide StoreAlert, StoredIn, AlertIdsBelow, RowsFor;
    StoreAlertKeepsOnAbort(t, req, w, choose);
    if StoreAlert(t, req, w, choose).reply.Ingested? {
      StoreRemembers(t, req, w, choose);
    }
    if req.externalId.Some? && |RowsFor(t, req.externalId.value)| == 1 {
      LookedUpIsStored(t, req.externalId.value);
    }
  }

  lemma LookedUpIsStored(t: Tables, externalId: string)
    requires |RowsFor(t, externalId)| == 1
    ensures StoredIn(t, externalId, TheOnly(RowsFor(t, externalId)).incident)
  {
    var l := TheOnly(RowsFor(t, externalId));
    assert l in RowsFor(t, externalId);
    assert Link(l.incident, l.alert) == l;
  }

  lemma StoreAlertKeepsOnAbort(t: Tables, req: AlertRequest, w: int, choose: RowChoice)
    ensures var r := StoreAlert(t, req, w, choose);
      !r.reply.Duplicate? && (r.reply.Aborted? ==> r.tables == t)
  {
    hide OpenIncident, JoinIncident, Correlates;
  }

  /** A stored alert delivered again is a duplicate of the same incident. */
  lemma StoredIsDuplicate(t: Tables, req: AlertRequest, i: Id, w: int, choose: RowChoice)
    requires LinksFit(t) && Partitioned(t) && ExternalIdsUnique(t)
    requires req.externalId.Some? && req.externalId.value != "" && StoredIn(t, req.externalId.value, i)
    ensures var r := IngestAlert(t, req, w, choose);
      r.tables == t && r.reply.Duplicate? && r.reply.incident == i
  {
    hide StoreAlert;
    var x := req.externalId.value;
    var a :| a in t.alerts && t.alerts[a].externalId == Some(x) && Link(i, a) in t.links && i in t.incidents;
    var l := LookupFinds(t, x, a);
    assert Link(i, a) in RowsFor(t, x);
    assert RowsFor(t, x) == {Link(i, a)};
  }

  /** Every alert that will be ingested carries a fingerprint. */
  predicate Fingerprinted(p: Payload) {
    forall a :: a in p.alerts && Firing(p, a) ==> a.fingerprint.Some? && a.fingerprint.value != ""
  }

  lemma ExternalIdIsNotEmpty(a: WebhookAlert)
    requires a.fingerprint.Some? && a.fingerprint.value != ""
    ensures ExternalIdOf(a).Some? && ExternalIdOf(a).value != ""
  {
    assert |"alertmanager:" + a.fingerprint.value + ":" + a.startsAtText| > 0;
  }

  /** What ingestion needs to know of the tables it starts from. */
  ghost predicate Ready(t: Tables) {
    AlertIdsBelow(t) && LinksFit(t) && Partitioned(t) && ExternalIdsUnique(t)
  }

  ghost predicate StaysReady(t: Tables, p: Payload, w: int, choose: nat -> RowChoice, n: nat)
    requires n <= |p.alerts|
  {
    forall k :: 0 <= k <= n ==> Ready(Deliver(t, p, w, choose, k).tables)
  }

  lemma ReadyBefore(t: Tables, p: Payload, w: int, choose: nat -> RowChoice, n: nat)
    requires 0 < n <= |p.alerts| && StaysReady(t, p, w, choose, n)
    ensures StaysReady(t, p, w, choose, n - 1) && Ready(Deliver(t, p, w, choose, n - 1).tables)
    ensures AlertIdsBelow(Deliver(t, p, w, choose, n - 1).tables)
  {
    hide LinksFit, Partitioned, ExternalIdsUnique, Deliver;
    assert Ready(Deliver(t, p, w, choose, n - 1).tables);
  }

  /** A firing alert that the schema refuses after conversion. */
  predicate Unconvertible(p: Payload, a: WebhookAlert) {
    Firing(p, a) && ToIngestRequest(a).None?
  }

  lemma RequestCarriesId(a: WebhookAlert)
    ensures ToIngestRequest(a).Some? ==> ToIngestRequest(a).value.externalId == ExternalIdOf(a)
  {
    hide ToSnakeCase;
  }

  lemma AlertIsRemembered(d: Delivery, p: Payload, a: WebhookAlert, w: int, choose: RowChoice)
    requires AlertIdsBelow(d.tables)
    ensures var d' := DeliverAlert(d, p, a, w, choose);
      Remembers(d.tables, d'.tables) &&
      (Firing(p, a) && !d'.failed && a.fingerprint.Some? && a.fingerprint.value != "" ==>
        exists i :: d'.incidents == Noted(d.incidents, i) && StoredIn(d'.tables, ExternalIdOf(a).value, i))
  {
    hide IngestAlert, ToIngestRequest, ExternalIdOf, AlertIdsBelow, StoredIn;
    var req := ToIngestRequest(a);
    RequestCarriesId(a);
    if Firing(p, a) && req.Some? {
      IngestRemembers(d.tables, req.value, w, choose);
      var r := IngestAlert(d.tables, req.value, w, choose);
      DuplicateKeeps(d.tables, req.value, w, choose);
      if !r.reply.Aborted? && a.fingerprint.Some? && a.fingerprint.value != "" {
        ExternalIdIsNotEmpty(a);
        assert StoredIn(r.tables, ExternalIdOf(a).value, r.reply.incident);
      }
    }
  }

  lemma DuplicateKeeps(t: Tables, req: AlertRequest, w: int, choose: RowChoice)
    ensures !IngestAlert(t, req, w, choose).reply.Ingested? ==> IngestAlert(t, req, w, choose).tables == t
  {
    hide StoreAlert;
    StoreAlertKeepsOnAbort(t, req, w, choose);
  }

  lemma RemembersItself(t: Tables)
    ensures Remembers(t, t)
  {}

  lemma {:induction false} DeliveryRemembers(t: Tables, p: Payload, w: int, choose: nat -> RowChoice, k: nat, n: nat)
    requires k <= n <= |p.alerts| && StaysReady(t, p, w, choose, n)
    ensures Remembers(Deliver(t, p, w, choose, k).tables, Deliver(t, p, w, choose, n).tables)
  {
    hide DeliverAlert, AlertIdsBelow, Ready, Remembers, StaysReady;
    if k == n {
      RemembersItself(Deliver(t, p, w, choose, n).tables);
    } else {
      ReadyBefore(t, p, w, choose, n);
      DeliveryRemembers(t, p, w, choose, k, n - 1);
      var d := Deliver(t, p, w, choose, n - 1);
      AlertIsRemembered(d, p, p.alerts[n - 1], w, choose(n - 1));
      RemembersIsTransitive(Deliver(t, p, w, choose, k).tables, d.tables, Deliver(t, p, w, choose, n).tables);
    }
  }

  /** A fingerprinted alert stops its delivery exactly when it converts to no request. */
  lemma FailsExactly(d: Delivery, p: Payload, a: WebhookAlert, w: int, choose: RowChoice)
    requires Ready(d.tables) && !d.failed
    requires Firing(p, a) ==> a.fingerprint.Some? && a.fingerprint.value != ""
    ensures DeliverAlert(d, p, a, w, choose).failed <==> Unconvertible(p, a)
    ensures Unconvertible(p, a) ==> DeliverAlert(d, p, a, w, choose) == d.(failed := true)
  {
    hide AlertIdsBelow, LinksFit, Partitioned, ExternalIdsUnique, IngestAlert, ToIngestRequest, ExternalIdOf;
    RequestCarriesId(a);
    if Firing(p, a) && ToIngestRequest(a).Some? {
      ExternalIdIsNotEmpty(a);
      IngestAbortsExactly(d.tables, ToIngestRequest(a).value, w, choose);
    }
  }

  /** A fingerprinted delivery stops exactly when some firing alert converts to no request. */
  lemma {:induction false} DeliveryFailsExactly(t: Tables, p: Payload, w: int, choose: nat -> RowChoice, n: nat)
    requires n <= |p.alerts| && Fingerprinted(p) && StaysReady(t, p, w, choose, n)
    ensures Deliver(t, p, w, choose, n).failed <==> exists k :: 0 <= k < n && Unconvertible(p, p.alerts[k])
  {
    hide Ready, DeliverAlert, Unconvertible, StaysReady;
    if n > 0 {
      ReadyBefore(t, p, w, choose, n);
      DeliveryFailsExactly(t, p, w, choose, n - 1);
      var d := Deliver(t, p, w, choose, n - 1);
      if d.failed {
        var k :| 0 <= k < n - 1 && Unconvertible(p, p.alerts[k]);
      } else {
        FailsExactly(d, p, p.alerts[n - 1], w, choose(n - 1));
      }
    }
  }

  /** A firing alert whose first delivery put it into incident i. */
  lemma FiringRedelivered(e: Delivery, p: Payload, a: WebhookAlert, i: Id, w: int, again: RowChoice)
    requires LinksFit(e.tables) && Partitioned(e.tables) && ExternalIdsUnique(e.tables)
    requires Firing(p, a) && a.fingerprint.Some? && a.fingerprint.value != "" && ToIngestRequest(a).Some?
    requires StoredIn(e.tables, ExternalIdOf(a).value, i)
    ensures DeliverAlert(e, p, a, w, again) == e.(duplicates := e.duplicates + 1, incidents := Noted(e.incidents, i))
  {
    hide ToIngestRequest, ExternalIdOf, StoredIn, IngestAlert, LinksFit, Partitioned, ExternalIdsUnique;
    RequestCarriesId(a);
    ExternalIdIsNotEmpty(a);
    StoredIsDuplicate(e.tables, ToIngestRequest(a).value, i, w, again);
  }

  lemma FirstDelivered(d: Delivery, p: Payload, a: WebhookAlert, w: int, choose: RowChoice)
    requires !d.failed && !DeliverAlert(d, p, a, w, choose).failed
    ensures var first := DeliverAlert(d, p, a, w, choose);
      if Firing(p, a)
      then ToIngestRequest(a).Some? && first.ignored == d.ignored &&
        first.ingested + first.duplicates == d.ingested + d.duplicates + 1
      else first == d.(ignored := d.ignored + 1)
  {
    hide IngestAlert, ToIngestRequest, Noted;
  }

  /** One alert of the second delivery. */
  lemma AlertRedelivered(
    d: Delivery, e: Delivery, p: Payload, a: WebhookAlert, w: int, choose: RowChoice, again: RowChoice)
    requires LinksFit(e.tables) && Partitioned(e.tables) && ExternalIdsUnique(e.tables)
    requires AlertIdsBelow(d.tables) && !d.failed && !DeliverAlert(d, p, a, w, choose).failed
    requires Remembers(DeliverAlert(d, p, a, w, choose).tables, e.tables)
    requires Firing(p, a) ==> a.fingerprint.Some? && a.fingerprint.value != ""
    requires e.incidents == d.incidents && e.ignored == d.ignored && !e.failed
    ensures var first, second := DeliverAlert(d, p, a, w, choose), DeliverAlert(e, p, a, w, again);
      second.tables == e.tables && !second.failed && second.ingested == e.ingested &&
      second.incidents == first.incidents && second.ignored == first.ignored &&
      second.duplicates - e.duplicates == first.ingested + first.duplicates - d.ingested - d.duplicates
  {
    hide LinksFit, Partitioned, ExternalIdsUnique, Remembers, AlertIdsBelow, StoredIn, ToIngestRequest, ExternalIdOf;
    FirstDelivered(d, p, a, w, choose);
    AlertIsRemembered(d, p, a, w, choose);
    if Firing(p, a) {
      ExternalIdIsNotEmpty(a);
      hide DeliverAlert;
      var first := DeliverAlert(d, p, a, w, choose);
      var i :| first.incidents == Noted(d.incidents, i) && StoredIn(first.tables, ExternalIdOf(a).value, i);
      StoredStays(first.tables, e.tables, ExternalIdOf(a).value, i);
      FiringRedelivered(e, p, a, i, w, again);
    }
  }

  /** One alert of the second delivery, also where the first one stopped. */
  lemma AlertRepeats(
    d: Delivery, e: Delivery, p: Payload, a: WebhookAlert, w: int, choose: RowChoice, again: RowChoice)
    requires Ready(d.tables) && !d.failed
    requires LinksFit(e.tables) && Partitioned(e.tables) && ExternalIdsUnique(e.tables)
    requires Firing(p, a) ==> a.fingerprint.Some? && a.fingerprint.value != ""
    requires Remembers(DeliverAlert(d, p, a, w, choose).tables, e.tables)
    requires e == Delivery(e.tables, 0, d.ingested + d.duplicates, d.ignored, d.incidents, false)
    ensures var first := DeliverAlert(d, p, a, w, choose);
      DeliverAlert(e, p, a, w, again) ==
        Delivery(e.tables, 0, first.ingested + first.duplicates, first.ignored, first.incidents, first.failed)
  {
    FailsExactly(d, p, a, w, choose);
    if Unconvertible(p, a) {
      assert DeliverAlert(e, p, a, w, again) == e.(failed := true);
    } else {
      hide DeliverAlert, LinksFit, Partitioned, ExternalIdsUnique, Remembers, AlertIdsBelow;
      AlertRedelivered(d, e, p, a, w, choose, again);
    }
  }

  /**
    In a store that remembers the first delivery, the second changes nothing, lists the same incidents,
    and stops where the first one stopped.
   */
  lemma {:induction false} RedeliveryChangesNothing(
    t: Tables, t': Tables, p: Payload, w: int, choose: nat -> RowChoice, again: nat -> RowChoice, n: nat)
    requires n <= |p.alerts| && Fingerprinted(p) && StaysReady(t, p, w, choose, n)
    requires Remembers(Deliver(t, p, w, choose, n).tables, t')
    requires LinksFit(t') && Partitioned(t') && ExternalIdsUnique(t')
    ensures var d := Deliver(t, p, w, choose, n);
      Deliver(t', p, w, again, n) == Delivery(t', 0, d.ingested + d.duplicates, d.ignored, d.incidents, d.failed)
  {
    hide DeliverAlert, LinksFit, Partitioned, ExternalIdsUnique, Remembers, AlertIdsBelow, Ready, StaysReady;
    if n > 0 {
      ReadyBefore(t, p, w, choose, n);
      var d := Deliver(t, p, w, choose, n - 1);
      DeliveryRemembers(t, p, w, choose, n - 1, n);
      RemembersIsTransitive(d.tables, Deliver(t, p, w, choose, n).tables, t');
      RedeliveryChangesNothing(t, t', p, w, choose, again, n - 1);
      if !d.failed {
        AlertRepeats(d, Deliver(t', p, w, again, n - 1), p, p.alerts[n - 1], w, choose(n - 1), again(n - 1));
      }
    }
  }
}
