/**
  What the correlation invariant means to a reader: deduplication never misses, incidents are chains
  in time, incidents of one stream are spaced apart, and the timeline rebuilds the incident.
 */
module IncidentShape {
  import opened Base
  import opened Schema
  import opened Ingestion
  import opened Correlation

  /******* Partition and deduplication *******/

  /** The duplicate lookup finds at most one row, and finds one whenever the alert is stored. */
  lemma LookupIsExact(t: Tables, externalId: string)
    requires LinksFit(t) && Partitioned(t) && ExternalIdsUnique(t)
    ensures |RowsFor(t, externalId)| <= 1
    ensures RowsFor(t, externalId) == {} <==> !ExternalIdTaken(t, Some(externalId))
  {
    var rows := RowsFor(t, externalId);
    if ExternalIdTaken(t, Some(externalId)) {
      var a :| a in t.alerts && t.alerts[a].externalId == Some(externalId);
      var l := LookupFinds(t, externalId, a);
      assert rows == {l};
    }
  }

  lemma LookupFinds(t: Tables, externalId: string, a: Id) returns (l: Link)
    requires LinksFit(t) && Partitioned(t) && ExternalIdsUnique(t)
    requires a in t.alerts && t.alerts[a].externalId == Some(externalId)
    ensures l.alert == a && l in RowsFor(t, externalId) && forall m :: m in RowsFor(t, externalId) ==> m == l
  {
    assert HasLink(t, a);
    l :| l in t.links && l.alert == a;
    forall m | m in RowsFor(t, externalId) ensures m == l {
      assert m.alert == a;
    }
  }

  /** The only request the store cannot take is a repeated empty external id. */
  lemma IngestAbortsExactly(t: Tables, req: AlertRequest, w: int, choose: RowChoice)
    requires LinksFit(t) && Partitioned(t) && ExternalIdsUnique(t)
    ensures IngestAlert(t, req, w, choose).reply.Aborted? <==>
      req.externalId == Some("") && ExternalIdTaken(t, Some(""))
  {
    if req.externalId.Some? {
      LookupIsExact(t, req.externalId.value);
    }
    var t1 := GetOrCreateService(t, req.serviceName).0;
    assert ExternalIdTaken(t1, req.externalId) <==> ExternalIdTaken(t, req.externalId);
  }

  ghost predicate InIncident(t: Tables, a: Id, i: Id) {
    i in t.incidents && Link(i, a) in t.links
  }

  /** Each alert is in exactly one incident, whose service it shares; an incident has one alert kind. */
  lemma AlertsArePartitioned(t: Tables, a: Id)
    requires LinksFit(t) && Partitioned(t) && OneKindEach(t) && a in t.alerts
    ensures exists i :: InIncident(t, a, i)
    ensures forall i, j :: InIncident(t, a, i) && InIncident(t, a, j) ==> i == j
    ensures forall i :: InIncident(t, a, i) ==> t.alerts[a].service == t.incidents[i].service
    ensures forall i, b :: InIncident(t, a, i) && InIncident(t, b, i) && b in t.alerts ==>
      t.alerts[a].kind == t.alerts[b].kind
  {
    assert HasLink(t, a);
    var l :| l in t.links && l.alert == a;
    assert InIncident(t, a, l.incident);
  }

  /******* Chain bound *******/

  /** `order` lists the alerts of incident i once each, by start time. */
  ghost predicate ListsByStart(t: Tables, i: Id, order: seq<Id>) {
    && (forall a :: a in order <==> a in Linked(t, i))
    && (forall a :: a in order ==> a in t.alerts)
    && (forall j, k :: 0 <= j < k < |order| ==> order[j] != order[k])
    && (forall j, k :: 0 <= j < k < |order| ==> t.alerts[order[j]].startedAt <= t.alerts[order[k]].startedAt)
  }

  lemma NextAlert(t: Tables, w: int, i: Id, a: Id, b: Id) returns (c: Id)
    requires Chained(t, i, w) && a in Linked(t, i) && b in Linked(t, i) && a in t.alerts && b in t.alerts
    requires t.alerts[a].startedAt < t.alerts[b].startedAt
    ensures c in Linked(t, i) && c in t.alerts
    ensures t.alerts[a].startedAt < t.alerts[c].startedAt <= t.alerts[a].startedAt + w
  {
    var x, y := t.alerts[a].startedAt, t.alerts[b].startedAt;
    assert Link(i, a) in t.links && Link(i, b) in t.links;
    assert x in Starts(t, i) && y in Starts(t, i);
    var next :| next in Starts(t, i) && x < next <= x + w;
    var l :| l in t.links && l.incident == i && l.alert in t.alerts && t.alerts[l.alert].startedAt == next;
    c := l.alert;
  }

  lemma NeighbourGap(t: Tables, w: int, i: Id, order: seq<Id>, k: nat)
    requires Chained(t, i, w) && ListsByStart(t, i, order) && k + 1 < |order|
    ensures t.alerts[order[k + 1]].startedAt - t.alerts[order[k]].startedAt <= w
  {
    var a, b := order[k], order[k + 1];
    assert a in order && b in order && a != b;
    if t.alerts[a].startedAt < t.alerts[b].startedAt {
      var c := NextAlert(t, w, i, a, b);
      assert c in order;
    }
  }

  /** n alerts of one incident span at most (n - 1) * w, in whatever order they arrived. */
  lemma {:induction false} ChainBound(t: Tables, w: int, i: Id, order: seq<Id>, n: nat)
    requires Chained(t, i, w) && ListsByStart(t, i, order) && 0 < n <= |order|
    ensures forall k :: 0 < k < n ==> t.alerts[order[k]].startedAt - t.alerts[order[k - 1]].startedAt <= w
    ensures t.alerts[order[n - 1]].startedAt - t.alerts[order[0]].startedAt <= (n - 1) * w
  {
    if n > 1 {
      ChainBound(t, w, i, order, n - 1);
      NeighbourGap(t, w, i, order, n - 2);
      assert (n - 1) * w == (n - 2) * w + w;
    }
  }

  /******* Packing bound *******/

  /** Incident i belongs to the stream of one service and alert kind. */
  ghost predicate OfStream(t: Tables, i: Id, service: Id, kind: string) {
    i in t.incidents && t.incidents[i].service == service &&
    exists l :: l in t.links && l.incident == i && l.alert in t.alerts && t.alerts[l.alert].kind == kind
  }

  /** While neither was ever closed, two incidents of one stream start more than w apart. */
  lemma OpenIncidentsAreSpaced(t: Tables, w: int, service: Id, kind: string, i: Id, j: Id)
    requires LinksFit(t) && Spaced(t, w) && i != j
    requires OfStream(t, i, service, kind) && OfStream(t, j, service, kind)
    requires !Closed(t, i) && !Closed(t, j)
    ensures t.incidents[i].startedAt - t.incidents[j].startedAt > w ||
      t.incidents[j].startedAt - t.incidents[i].startedAt > w
  {
    var l :| l in t.links && l.incident == i && l.alert in t.alerts && t.alerts[l.alert].kind == kind;
    var m :| m in t.links && m.incident == j && m.alert in t.alerts && t.alerts[m.alert].kind == kind;
    assert !CloseStarts(t, l, m, w);
  }

  ghost predicate OpenGroup(t: Tables, group: set<Id>, service: Id, kind: string, lo: int, hi: int) {
    forall i :: i in group ==>
      OfStream(t, i, service, kind) && !Closed(t, i) && lo <= t.incidents[i].startedAt <= hi
  }

  lemma {:induction false} GroupSpan(t: Tables, w: nat, service: Id, kind: string, group: set<Id>, lo: int, hi: int)
    requires LinksFit(t) && Spaced(t, w) && group != {} && OpenGroup(t, group, service, kind, lo, hi)
    ensures (|group| - 1) * (w + 1) <= hi - lo
    decreases |group|
  {
    var latest := LatestStart(t, group);
    var rest := group - {latest};
    assert group == rest + {latest} && |group| == |rest| + 1;
    if rest != {} {
      var top := t.incidents[latest].startedAt;
      forall i | i in rest ensures t.incidents[i].startedAt <= top - (w + 1) {
        OpenIncidentsAreSpaced(t, w, service, kind, i, latest);
      }
      GroupSpan(t, w, service, kind, rest, lo, top - (w + 1));
      assert (|group| - 1) * (w + 1) == (|rest| - 1) * (w + 1) + (w + 1);
    }
  }

  lemma QuotientBound(k: nat, d: int, length: nat)
    requires 0 < d && k * d <= length
    ensures k <= length / d
  {
    var q := length / d;
    assert length < q * d + d == (q + 1) * d;
    if q + 1 <= k {
      Scaled(q + 1, k, d);
    }
  }

  lemma Scaled(a: nat, b: nat, d: nat)
    requires a <= b
    ensures a * d <= b * d
  {
    assert b * d == a * d + (b - a) * d;
  }

  /** In an interval of the given length fit at most length / (w + 1) + 1 never closed incidents. */
  lemma PackingBound(t: Tables, w: nat, service: Id, kind: string, group: set<Id>, lo: int, length: nat)
    requires LinksFit(t) && Spaced(t, w) && OpenGroup(t, group, service, kind, lo, lo + length)
    ensures |group| <= length / (w + 1) + 1
  {
    if group != {} {
      GroupSpan(t, w, service, kind, group, lo, lo + length);
      QuotientBound(|group| - 1, w + 1, length);
    }
  }

  /******* Severity *******/

  /** An incident is exactly as severe as its most severe alert. */
  lemma SeverityIsMaximum(t: Tables, i: Id)
    requires LinksFit(t) && i in t.incidents && SeverityAttained(t, i)
    ensures forall a :: a in Linked(t, i) && a in t.alerts ==>
      Rank(t.alerts[a].severity) <= Rank(t.incidents[i].severity)
    ensures exists a :: a in Linked(t, i) && a in t.alerts && t.alerts[a].severity == t.incidents[i].severity
  {
    var l :| l in t.links && l.incident == i && l.alert in t.alerts &&
      t.alerts[l.alert].severity == t.incidents[i].severity;
    assert l.alert in Linked(t, i);
    forall a | a in Linked(t, i) && a in t.alerts
      ensures Rank(t.alerts[a].severity) <= Rank(t.incidents[i].severity)
    {
      assert Link(i, a) in t.links;
    }
  }
}
